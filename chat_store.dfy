/** The records the conversation store and the backend hand to the home components. */
module ChatStore {
  import opened Wrappers

  /** A backend document identifier (user, conversation, stored file). */
  type Id = string

  /** A user as the `getMe` query and a message's `sender` field carry it. */
  datatype User = User(id: Id, name: string, isOnline: bool, image: string)

  /**
   * The selected conversation held by the store. Fields that a record may
   * lack (a direct conversation built on the client has no admin) are Options.
   */
  datatype Conversation = Conversation(
    id: Id,
    isGroup: bool,
    participants: seq<Id>,
    admin: Option<Id>,
    name: Option<string>,
    isOnline: Option<bool>,
    image: Option<string>)
}
