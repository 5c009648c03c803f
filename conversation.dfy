/** A turn of the survey conversation as the client keeps it and as it
    travels to the chat route and to the spreadsheet: a role and a text. */
module Conversation {

  datatype Role = User | Assistant

  /** The role as written on the wire and in the sheet. */
  function RoleName(r: Role): (name: string)
    ensures name == "user" <==> r == User
    ensures name == "assistant" <==> r == Assistant
  {
    match r
    case User => "user"
    case Assistant => "assistant"
  }

  datatype Turn = Turn(role: Role, content: string)
}
