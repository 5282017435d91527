/** The records exchanged by the chat widget: a message of the log and the
    role/content pair sent as history. */
module ChatTypes {
  import opened Optional

  /** The closed set of speakers. */
  datatype Role = User | Assistant

  /** The wire name of a role. */
  function RoleName(r: Role): (n: string)
    ensures n == "user" <==> r == User
    ensures n == "assistant" <==> r == Assistant
  {
    match r
    case User => "user"
    case Assistant => "assistant"
  }

  /** A message id: the literal `'1'` of the seeded greeting, or the clock
      reading (`Date.now()`, in milliseconds) of the moment it was made.
      Ids are display keys only and are not guaranteed unique. */
  datatype MessageId = Seed | Clock(millis: nat)

  /** One chat turn. Its `module` field (`moduleName` here) is undefined (`None`) only on the seeded
      greeting; a stored module name may be the empty string. */
  datatype Message = Message(id: MessageId, content: string, role: Role, moduleName: Option<string>)

  /** One history entry as the client sends it. */
  datatype Turn = Turn(role: Role, content: string)
}
