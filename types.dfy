/**
 * The records the dashboard stores and shows (src/types/index.d.ts), and the
 * small wrappers the rest of the model uses for JavaScript's optional values
 * and thrown errors.
 */
module Types {

  /** A value that may be `undefined` / `null` in the source. */
  datatype Option<+T> = None | Some(value: T) {
    function GetOr(default: T): T {
      match this
      case Some(v) => v
      case None => default
    }
  }

  /** An `Error` as thrown in JavaScript: its `message` may be missing. */
  datatype Thrown = Thrown(message: Option<string>)

  /** The outcome of an awaited call that either returns a value or throws. */
  datatype Attempt<+T> = Returned(value: T) | Raised(error: Thrown)

  /** One chat message of a conversation (`Message`). */
  datatype Message = Message(
    id: string,
    authorRole: string,
    content: string,
    timestamp: real,
    parentId: Option<string>,
    childrenIds: seq<string>)

  /** One imported conversation (`Conversation`); `category` is the source's `label`, set by the classifier. */
  datatype Conversation = Conversation(
    title: string,
    category: Option<string>,
    createTime: real,
    updateTime: real,
    conversationId: string,
    messages: seq<Message>)

  /** A user record of the `users` collection (`IUser`). */
  datatype User = User(id: string, email: string, name: string, hasUploaded: bool)
}
