/** The spreadsheet library: a finished conversation becomes one row of a
    17-column sheet whose first row holds the column names. The remote
    spreadsheet is modelled as the rows of its first sheet; each call to the
    spreadsheet service either takes effect or fails with a message. */
module Sheets {

  import opened Wrappers
  import opened Text

  /** A message as the save receives it. The role is whatever the caller
      sent: the save renders it without looking at it. */
  datatype SheetMessage = SheetMessage(role: string, content: string)

  /** The record a save writes. `duration` is `None` when the caller sent no
      number. */
  datatype ConversationData = ConversationData(timestamp: string, sessionId: string, duration: Option<int>,
                                               messages: seq<SheetMessage>, summary: string)

  /** A cell value written with the RAW input option: a string or a number. */
  datatype Cell = Str(text: string) | Num(value: int)

  /** What a call to the spreadsheet service does. */
  datatype ApiCall = Succeeds | Fails(message: string)

  /** How a library call ends: normally, or by throwing an error with its
      message. */
  datatype Outcome = Done | Thrown(message: string)

  const MissingIdMessage := "GOOGLE_SHEETS_SPREADSHEET_ID is not set"

  /** The number of columns from A to Q, the ranges both calls write. */
  const ColumnCount := 'Q' as int - 'A' as int + 1

  const HeaderNames: seq<string> := [
    "Timestamp", "Session ID", "Duration (seconds)",
    "Role", "Team Size", "Location Setup", "Company Stage", "Industry Sector",
    "Project Management Tools", "Documentation Tools", "Communication Tools",
    "AI Usage", "Meeting Practices", "Main Pain Points", "Tool Satisfaction",
    "Looking to Change", "Raw Conversation"
  ]

  /** One message of the conversation text: `role: content`. */
  function Line(m: SheetMessage): string
  {
    m.role + ": " + m.content
  }

  function Lines(messages: seq<SheetMessage>): (r: seq<string>)
    ensures |r| == |messages|
    ensures forall i :: 0 <= i < |messages| ==> r[i] == Line(messages[i])
  {
    if |messages| == 0 then [] else [Line(messages[0])] + Lines(messages[1..])
  }

  /** The raw conversation column: the messages' lines, in order, separated
      by a blank line. */
  function ConversationText(messages: seq<SheetMessage>): string
  {
    Join(Lines(messages), "\n\n")
  }

  lemma {:induction false} LinesAppend(a: seq<SheetMessage>, b: seq<SheetMessage>)
    ensures Lines(a + b) == Lines(a) + Lines(b)
  {
    if |a| == 0 {
      assert a + b == b;
    } else {
      assert (a + b)[1..] == a[1..] + b;
      LinesAppend(a[1..], b);
    }
  }

  /** A further message adds a blank line and its own line at the end of the
      text, and is the whole text when it is the first. */
  lemma ConversationTextSnoc(messages: seq<SheetMessage>, m: SheetMessage)
    ensures ConversationText(messages + [m])
            == if messages == [] then Line(m) else ConversationText(messages) + "\n\n" + Line(m)
  {
    LinesAppend(messages, [m]);
    assert Lines([m]) == [Line(m)];
    if messages == [] {
      assert Lines(messages) + [Line(m)] == [Line(m)];
    } else {
      JoinSnoc(Lines(messages), Line(m), "\n\n");
    }
  }

  /** The text begins with the first message's line. */
  lemma ConversationTextStart(messages: seq<SheetMessage>)
    requires messages != []
    ensures StartsWith(ConversationText(messages), Line(messages[0]))
  {
    var lines := Lines(messages);
    if |lines| > 1 {
      var t := ConversationText(messages);
      assert t == lines[0] + ("\n\n" + Join(lines[1..], "\n\n"));
      assert t[..|lines[0]|] == lines[0];
    }
  }

  /** The text is empty exactly when there are no messages: every line holds
      at least the `: ` after the role. */
  lemma ConversationTextEmpty(messages: seq<SheetMessage>)
    ensures ConversationText(messages) == "" <==> messages == []
  {
    if messages != [] {
      ConversationTextStart(messages);
      assert |Line(messages[0])| >= 2;
    }
  }

  /** The duration column: the duration, or an empty string when there is
      none or it is zero (the `||` fallback treats 0 as missing). */
  function DurationCell(duration: Option<int>): (c: Cell)
    ensures c == Str("") <==> duration == None || duration == Some(0)
    ensures c != Str("") ==> c == Num(duration.value)
  {
    match duration
    case None => Str("")
    case Some(d) => if d == 0 then Str("") else Num(d)
  }

  /** The row a save appends: timestamp, session id and duration, thirteen
      columns left empty for later extraction, and the raw conversation. */
  function RowData(data: ConversationData): (r: seq<Cell>)
    ensures |r| == ColumnCount
    ensures r[0] == Str(data.timestamp) && r[1] == Str(data.sessionId) && r[2] == DurationCell(data.duration)
    ensures forall i :: 3 <= i < ColumnCount - 1 ==> r[i] == Str("")
    ensures r[ColumnCount - 1] == Str(ConversationText(data.messages))
  {
    [Str(data.timestamp), Str(data.sessionId), DurationCell(data.duration)]
    + seq(13, _ => Str(""))
    + [Str(ConversationText(data.messages))]
  }

  function StrCells(names: seq<string>): (r: seq<Cell>)
    ensures |r| == |names|
    ensures forall i :: 0 <= i < |names| ==> r[i] == Str(names[i])
  {
    if |names| == 0 then [] else [Str(names[0])] + StrCells(names[1..])
  }

  function HeaderCells(): seq<Cell>
  {
    StrCells(HeaderNames)
  }

  /** The header and the saved rows line up: both span the columns A to Q,
      and each filled column of a row sits under its name. */
  lemma HeaderMatchesRow(data: ConversationData)
    ensures |HeaderNames| == |RowData(data)| == ColumnCount == 17
    ensures HeaderNames[0] == "Timestamp" && HeaderNames[1] == "Session ID"
    ensures HeaderNames[2] == "Duration (seconds)"
    ensures HeaderNames[ColumnCount - 1] == "Raw Conversation"
    ensures forall i :: 0 <= i < ColumnCount && RowData(data)[i] != Str("") ==> i <= 2 || i == ColumnCount - 1
  {
  }

  /** No two columns share a name. */
  lemma HeaderNamesDistinct()
    ensures forall i, j :: 0 <= i < j < |HeaderNames| ==> HeaderNames[i] != HeaderNames[j]
  {
    var h := HeaderNames;
    forall i, j | 0 <= i < j < |h| ensures h[i] != h[j] {
      assert h[i][0] != h[j][0] || |h[i]| != |h[j]| || h[i][1] != h[j][1] || h[i][5] != h[j][5];
    }
  }

  /** The rows after the header update of A1:Q1 with the given names: the
      first row's leading cells become the names, anything to their right
      and every other row are left as they were. */
  function WithHeader(rows: seq<seq<Cell>>, header: seq<Cell>): (r: seq<seq<Cell>>)
    ensures |r| == if |rows| == 0 then 1 else |rows|
    ensures |r[0]| >= |header| && r[0][..|header|] == header
    ensures |rows| > 0 && |rows[0]| > |header| ==> r[0][|header|..] == rows[0][|header|..]
    ensures |rows| > 0 ==> r[1..] == rows[1..]
  {
    var rest := if |rows| > 0 && |rows[0]| > |header| then rows[0][|header|..] else [];
    [header + rest] + (if |rows| > 0 then rows[1..] else [])
  }

  /** Writing the header again, even after rows were appended, changes
      nothing: this is what lets the route initialize the sheet before
      every save. */
  lemma WithHeaderIdempotent(rows: seq<seq<Cell>>, header: seq<Cell>, appended: seq<seq<Cell>>)
    ensures WithHeader(WithHeader(rows, header) + appended, header) == WithHeader(rows, header) + appended
  {
    var once := WithHeader(rows, header);
    var after := once + appended;
    var rest := if |rows| > 0 && |rows[0]| > |header| then rows[0][|header|..] else [];
    assert after[0] == once[0] == header + rest;
    if |rest| > 0 {
      assert after[0][|header|..] == rest;
    }
    assert WithHeader(after, header)[0] == after[0];
    assert WithHeader(after, header)[1..] == after[1..];
  }

  /** The spreadsheet the configured id names, as the rows of `Sheet1`. */
  class Spreadsheet {
    var rows: seq<seq<Cell>>

    constructor (initial: seq<seq<Cell>>)
      ensures rows == initial
    {
      rows := initial;
    }
  }

  /** `saveConversationToSheets`: without a spreadsheet id it throws before
      touching the sheet; otherwise it appends exactly one row, and a failed
      append is rethrown with the sheet unchanged. */
  method SaveConversationToSheets(spreadsheetId: string, data: ConversationData, sheet: Spreadsheet, api: ApiCall)
    returns (outcome: Outcome)
    modifies sheet
    ensures spreadsheetId == "" ==> outcome == Thrown(MissingIdMessage) && sheet.rows == old(sheet.rows)
    ensures spreadsheetId != "" && api.Succeeds? ==> outcome == Done && sheet.rows == old(sheet.rows) + [RowData(data)]
    ensures spreadsheetId != "" && api.Fails? ==> outcome == Thrown(api.message) && sheet.rows == old(sheet.rows)
  {
    if spreadsheetId == "" {
      return Thrown(MissingIdMessage);
    }
    var row := RowData(data);
    match api {
      case Succeeds =>
        sheet.rows := sheet.rows + [row];
        outcome := Done;
      case Fails(message) =>
        outcome := Thrown(message);
    }
  }

  /** `initializeSheet`: without a spreadsheet id it throws before touching
      the sheet; otherwise it writes the header row, and a failed update is
      rethrown with the sheet unchanged. */
  method InitializeSheet(spreadsheetId: string, sheet: Spreadsheet, api: ApiCall) returns (outcome: Outcome)
    modifies sheet
    ensures spreadsheetId == "" ==> outcome == Thrown(MissingIdMessage) && sheet.rows == old(sheet.rows)
    ensures spreadsheetId != "" && api.Succeeds? ==> outcome == Done && sheet.rows == WithHeader(old(sheet.rows), HeaderCells())
    ensures spreadsheetId != "" && api.Fails? ==> outcome == Thrown(api.message) && sheet.rows == old(sheet.rows)
  {
    if spreadsheetId == "" {
      return Thrown(MissingIdMessage);
    }
    match api {
      case Succeeds =>
        sheet.rows := WithHeader(sheet.rows, HeaderCells());
        outcome := Done;
      case Fails(message) =>
        outcome := Thrown(message);
    }
  }
}
