/** Wire messages exchanged between the browser client and the relay server
    (the `init`, `playerUpdate` and `gameState` messages), as values.
    JSON encoding and decoding are not modelled: a message is its decoded form. */
module Protocol {

  datatype Option<T> = None | Some(value: T)

  /** One player's record as the server stores it and as it travels in `gameState`. */
  datatype PlayerState = PlayerState(id: string, x: real, y: real, health: int)

  /** The body of a `playerUpdate`: the client's id is still null before `init` arrives. */
  datatype UpdateBody = UpdateBody(id: Option<string>, x: real, y: real, health: int)

  /** Client to server. Any `type` other than `playerUpdate` is carried as `OtherClientMessage`. */
  datatype ClientMessage =
    | PlayerUpdate(player: UpdateBody)
    | OtherClientMessage(kind: string)

  /** Server to client. */
  datatype ServerMessage =
    | Init(id: string)
    | GameState(players: seq<PlayerState>)
}
