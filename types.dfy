/** The per-connection conversation state shared by the backend services. */
module Types {
  import opened Wrappers

  /** Facts extracted from the user, by key; a value counts as set when it is not empty. */
  type Context = map<string, string>

  /**
   * One conversation: its id, the accumulated context, the node it stands at and the
   * "User: ..." / "AI: ..." transcript.  `currentNodeId` is optional because the
   * analyzer's choice is stored unchecked and may be `undefined`.
   */
  datatype Session = Session(
    sessionId: string,
    context: Context,
    currentNodeId: Option<string>,
    history: seq<string>)
}
