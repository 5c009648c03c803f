/** The persistence route (`/api/sheets`): `POST` checks the configuration
    and the posted conversation, initializes the sheet, saves the
    conversation as a row with a fresh session id and maps errors to
    responses; `GET` only initializes the sheet. The session id and the
    timestamp are inputs. */
module SheetsRoute {

  import opened Wrappers
  import opened Text
  import Sheets

  /** The three environment variables the route needs; an unset variable is
      the empty string (both are falsy). */
  datatype Env = Env(spreadsheetId: string, privateKey: string, clientEmail: string)

  /** The posted `conversation` value: an array of messages, an array with
      a `null` entry (whose `role` cannot be read), or anything else
      (missing, null, a string, an object...). */
  datatype ConversationField = NotAnArray | AnArray(items: seq<Sheets.SheetMessage>) | ArrayWithNull

  /** The posted body as the route destructures it. `latestResponse` is
      `None` when absent; the two flags are the truthiness of their
      properties. */
  datatype SaveBody = SaveBody(conversation: ConversationField, latestResponse: Option<string>,
                               sessionDuration: Option<int>, isAbruptExit: bool, isAutoSave: bool)

  /** What `request.json()` yields: the body, or a parse error's message. */
  datatype ParsedBody = Parsed(body: SaveBody) | Unparsable(message: string)

  /** The route's JSON responses. */
  datatype Response = Saved(sessionId: string) | Initialized | Failure(status: int, error: string)

  const AbruptTag := " [ABRUPT EXIT]"
  const AutoSaveTag := " [AUTO-SAVED]"
  const NotConfigured := "Google Sheets not configured"
  const InvalidConversation := "Invalid conversation format"
  const ConfigurationMissing := "Google Sheets configuration missing"
  const CredentialsMissing := "Google Service Account credentials missing"
  const SaveFailed := "Failed to save to Google Sheets"
  const InitFailed := "Failed to initialize Google Sheets"

  /** A possibly absent value in a string concatenation: an absent one is
      rendered as `undefined`. */
  function Rendered(v: Option<string>): string
  {
    if v.Some? then v.value else "undefined"
  }

  /** The summary: the latest response, then the abrupt-exit tag when that
      flag is set, then the auto-save tag when that one is. */
  function Summary(latestResponse: Option<string>, isAbruptExit: bool, isAutoSave: bool): string
  {
    Rendered(latestResponse) + (if isAbruptExit then AbruptTag else "") + (if isAutoSave then AutoSaveTag else "")
  }

  /** The summary starts with the latest response, ends with the auto-save
      tag exactly when that flag is set (the tag goes last), carries the
      abrupt-exit tag just before it when both are set, and adds nothing
      else. */
  lemma SummaryShape(latestResponse: Option<string>, isAbruptExit: bool, isAutoSave: bool)
    ensures var s := Summary(latestResponse, isAbruptExit, isAutoSave);
      && StartsWith(s, Rendered(latestResponse))
      && |s| == |Rendered(latestResponse)| + (if isAbruptExit then |AbruptTag| else 0) + (if isAutoSave then |AutoSaveTag| else 0)
      && (isAutoSave ==> EndsWith(s, AutoSaveTag))
      && (isAbruptExit && !isAutoSave ==> EndsWith(s, AbruptTag))
      && (isAbruptExit && isAutoSave ==> EndsWith(s, AbruptTag + AutoSaveTag))
      && (!isAbruptExit && !isAutoSave ==> s == Rendered(latestResponse))
  {
    var r := Rendered(latestResponse);
    var s := Summary(latestResponse, isAbruptExit, isAutoSave);
    assert s[..|r|] == r;
    if isAbruptExit && isAutoSave {
      assert s == r + (AbruptTag + AutoSaveTag);
    }
  }

  /** The error mapping of `POST`: a message naming the spreadsheet-id
      variable means missing configuration, one naming the key file means
      missing credentials, anything else is the generic failure. */
  function ErrorMessage(message: string): (r: string)
    ensures Contains(message, "GOOGLE_SHEETS_SPREADSHEET_ID") ==> r == ConfigurationMissing
    ensures !Contains(message, "GOOGLE_SHEETS_SPREADSHEET_ID") && Contains(message, "service-account-key.json")
            ==> r == CredentialsMissing
    ensures !Contains(message, "GOOGLE_SHEETS_SPREADSHEET_ID") && !Contains(message, "service-account-key.json")
            ==> r == SaveFailed
  {
    if Contains(message, "GOOGLE_SHEETS_SPREADSHEET_ID") then ConfigurationMissing
    else if Contains(message, "service-account-key.json") then CredentialsMissing
    else SaveFailed
  }

  /** The library's own missing-id error is reported as missing
      configuration. */
  lemma MissingIdIsConfigurationMissing()
    ensures ErrorMessage(Sheets.MissingIdMessage) == ConfigurationMissing
  {
    assert OccursAt(Sheets.MissingIdMessage, "GOOGLE_SHEETS_SPREADSHEET_ID", 0);
  }

  /** The record a successful `POST` saves. */
  function Record(body: SaveBody, items: seq<Sheets.SheetMessage>, timestamp: string, sessionId: string): Sheets.ConversationData
  {
    Sheets.ConversationData(timestamp, sessionId, body.sessionDuration, items,
                            Summary(body.latestResponse, body.isAbruptExit, body.isAutoSave))
  }

  /** `POST /api/sheets`. The configuration check comes first, then the body
      check; the sheet is initialized before the row is saved, and any error
      thrown on the way is mapped to a 500 response. */
  method Post(env: Env, parsed: ParsedBody, timestamp: string, sessionId: string,
              sheet: Sheets.Spreadsheet, initApi: Sheets.ApiCall, saveApi: Sheets.ApiCall)
    returns (resp: Response, saved: Option<Sheets.ConversationData>)
    modifies sheet
    ensures resp.Failure? ==> resp.status in {400, 500} && saved == None
    ensures env.spreadsheetId == "" || env.privateKey == "" || env.clientEmail == "" ==>
              resp == Failure(500, NotConfigured) && sheet.rows == old(sheet.rows)
    ensures env.spreadsheetId != "" && env.privateKey != "" && env.clientEmail != "" ==>
              match parsed
              case Unparsable(m) => resp == Failure(500, ErrorMessage(m)) && sheet.rows == old(sheet.rows)
              case Parsed(body) =>
                match body.conversation
                case NotAnArray => resp == Failure(400, InvalidConversation) && sheet.rows == old(sheet.rows)
                case ArrayWithNull =>
                  (match initApi
                   case Fails(m) => resp == Failure(500, ErrorMessage(m)) && sheet.rows == old(sheet.rows)
                   case Succeeds => resp == Failure(500, SaveFailed)
                                    && sheet.rows == Sheets.WithHeader(old(sheet.rows), Sheets.HeaderCells()))
                case AnArray(items) =>
                  match initApi
                  case Fails(m) => resp == Failure(500, ErrorMessage(m)) && sheet.rows == old(sheet.rows)
                  case Succeeds =>
                    match saveApi
                    case Fails(m) => resp == Failure(500, ErrorMessage(m))
                                     && sheet.rows == Sheets.WithHeader(old(sheet.rows), Sheets.HeaderCells())
                    case Succeeds =>
                      && resp == Saved(sessionId)
                      && saved == Some(Record(body, items, timestamp, sessionId))
                      && sheet.rows == Sheets.WithHeader(old(sheet.rows), Sheets.HeaderCells()) + [Sheets.RowData(saved.value)]
  {
    saved := None;
    if env.spreadsheetId == "" || env.privateKey == "" || env.clientEmail == "" {
      return Failure(500, NotConfigured), None;
    }
    if parsed.Unparsable? {
      return Failure(500, ErrorMessage(parsed.message)), None;
    }
    var body := parsed.body;
    if body.conversation.NotAnArray? {
      return Failure(400, InvalidConversation), None;
    }
    var init := Sheets.InitializeSheet(env.spreadsheetId, sheet, initApi);
    if init.Thrown? {
      return Failure(500, ErrorMessage(init.message)), None;
    }
    if body.conversation.ArrayWithNull? {
      // The message map of the save throws a TypeError on the null entry,
      // after the id check and before the append; its message names
      // neither the id variable nor the key file.
      return Failure(500, SaveFailed), None;
    }
    var data := Record(body, body.conversation.items, timestamp, sessionId);
    var outcome := Sheets.SaveConversationToSheets(env.spreadsheetId, data, sheet, saveApi);
    if outcome.Thrown? {
      return Failure(500, ErrorMessage(outcome.message)), None;
    }
    resp := Saved(sessionId);
    saved := Some(data);
  }

  /** `GET /api/sheets`: initializes the sheet. It checks no configuration
      itself, so a missing spreadsheet id surfaces as the generic
      initialization failure. */
  method Get(spreadsheetId: string, sheet: Sheets.Spreadsheet, api: Sheets.ApiCall) returns (resp: Response)
    modifies sheet
    ensures resp == Initialized <==> spreadsheetId != "" && api.Succeeds?
    ensures resp != Initialized ==> resp == Failure(500, InitFailed) && sheet.rows == old(sheet.rows)
    ensures resp == Initialized ==> sheet.rows == Sheets.WithHeader(old(sheet.rows), Sheets.HeaderCells())
  {
    var outcome := Sheets.InitializeSheet(spreadsheetId, sheet, api);
    if outcome.Thrown? {
      resp := Failure(500, InitFailed);
    } else {
      resp := Initialized;
    }
  }

  /** A successful save is found in the sheet: the last row carries the
      returned session id, the duration as posted, and the conversation
      text of the posted messages, under a header that one more
      initialization would not change. */
  lemma SavedRowCarriesRequest(rows: seq<seq<Sheets.Cell>>, body: SaveBody, items: seq<Sheets.SheetMessage>,
                               timestamp: string, sessionId: string)
    ensures var after := Sheets.WithHeader(rows, Sheets.HeaderCells()) + [Sheets.RowData(Record(body, items, timestamp, sessionId))];
      var last := after[|after| - 1];
      && last[1] == Sheets.Str(sessionId)
      && last[2] == Sheets.DurationCell(body.sessionDuration)
      && last[Sheets.ColumnCount - 1] == Sheets.Str(Sheets.ConversationText(items))
      && after[0][..Sheets.ColumnCount] == Sheets.HeaderCells()
      && Sheets.WithHeader(after, Sheets.HeaderCells()) == after
  {
    var row := Sheets.RowData(Record(body, items, timestamp, sessionId));
    Sheets.WithHeaderIdempotent(rows, Sheets.HeaderCells(), [row]);
  }
}
