/** The shapes both bot processes exchange with the messaging platform:
    an incoming message, the outbound send calls, and what the platform
    answers to one such call. */
module Messages {

  datatype Option<+T> = None | Some(value: T)

  /** A message as the platform delivers it. `photo` lists the file ids of
      the sizes of one picture, smallest first; `video` and `document` hold
      a file id. A field the message does not have is `None`. */
  datatype Message = Message(
    text: Option<string>,
    caption: Option<string>,
    photo: Option<seq<string>>,
    video: Option<string>,
    document: Option<string>)

  /** JavaScript truthiness of an optional string: absent and "" are falsy. */
  predicate Truthy(s: Option<string>) {
    s.Some? && s.value != ""
  }

  /** An error the platform reports for a call (HTTP-like code and description). */
  datatype ApiError = ApiError(code: int, description: string)

  /** What the platform answers to one outbound call; this is the oracle
      that stands for the network. */
  datatype ApiResult = Delivered | Rejected(error: ApiError)

  /** One outbound call to the platform. */
  datatype Call =
    | SendText(chat: int, text: string)
    | SendPhoto(chat: int, fileId: string, caption: Option<string>)
    | SendVideo(chat: int, fileId: string, caption: Option<string>)
    | SendDocument(chat: int, fileId: string, caption: Option<string>)
  {
    function Chat(): int {
      match this
      case SendText(c, _) => c
      case SendPhoto(c, _, _) => c
      case SendVideo(c, _, _) => c
      case SendDocument(c, _, _) => c
    }
  }
}
