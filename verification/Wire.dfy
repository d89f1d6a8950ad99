/** Values shared by the components: identifiers, options and the JSON events
    that the handlers push to a room. */
module Wire {

  type EntityId = nat
  type TrackId = nat
  type UserId = nat

  datatype Option<+T> = None | Some(value: T)

  /** What a hub message carries. The first three are the events of a playlist
      room; Text stands for every other frame. */
  datatype Payload =
    | TrackAdded(track: TrackId)
    | TrackRemoved(track: TrackId)
    | TrackMoved(track: TrackId, position: int)
    | Text(content: string)
}
