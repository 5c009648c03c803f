# tana-survey core, modelled in Dafny

tana-survey is a survey application. A visitor answers a language model's
questions in a text chat or in a voice conversation, and the finished
conversation is stored as one row of a Google spreadsheet. This project
models the logic that sits between the external services:

- **The streamed reply of the chat route and its reading by the chat
  screen** (`chat_stream.dfy`, `chat_route.dfy`).
  - The route writes each text delta of the model as a `data:` line
    carrying `{"text": ...}`, followed by a blank line. It closes the
    stream with `data: [DONE]`. This is a simplified form of the data
    lines of `text/event-stream` (WHATWG HTML Living Standard, section 9.2
    "Server-sent events").
  - The client splits each received chunk into lines and reads the
    `data:` lines. It stops at `[DONE]` and skips payloads that do not
    parse.
  - JSON string escaping follows section 25.5.2.3 of ECMA-262, and the
    reading side follows section 7 of RFC 8259 (`json_string.dfy`).
- **The chat screen's message list** (`survey_chat.dfy`): sending, the
  streamed fill of the assistant placeholder, the apology on failure, and
  the 60-second session timer.
- **The chat input box** (`chat_input.dfy`): submitting the trimmed draft,
  the Enter rule, and the first-keystroke latch.
- **The voice page** (`wav_codec.dfy`, `voice_session.dfy`):
  - 16-bit little-endian PCM samples to and from bytes;
  - the canonical 44-byte RIFF/WAVE header (Microsoft/IBM Multimedia
    Programming Interface and Data Specifications 1.0);
  - the audio queue with its single-consumer `playing` flag;
  - the transcript built from the agent's events, and the payload posted
    when the conversation is submitted.
- **The spreadsheet library and the persistence route** (`sheets.dfy`,
  `sheets_route.dfy`):
  - the conversation text;
  - the 17-column row and the header row;
  - the configuration and body checks;
  - the summary string and the mapping from errors to responses.

## How the model is organised

- **State that the source updates in place is a Dafny `class`** whose
  methods carry `modifies` clauses. These are the chat screen
  (`SurveyChat.ChatSession`), the input box (`ChatInput.ChatInputBox`),
  the voice session (`VoiceSession.Session`) and the spreadsheet
  (`Sheets.Spreadsheet`).
- **Loops in the source are `while` loops with invariants**, each proved
  against a function:
  - the relaying loop of the route, against `ChatStream.EncodedStream`;
  - the chunk and line loops of the client, against
    `ChatStream.DecodeChunks`;
  - the audio drain loop, against `VoiceSession.Arrived` and
    `VoiceSession.Kept`;
  - the PCM and WAV byte loops over arrays, against `WavCodec.WavFile`
    and `WavCodec.DecodeSamples`.
- **External services and clocks are parameters.** These are the
  language model, the spreadsheet API, the WebSocket, the audio output,
  the clock, and `uuid`.
  - A call to the spreadsheet API either succeeds or fails with a message
    (`Sheets.ApiCall`).
  - The model's stream is a list of events that ends normally or fails
    (`ChatRoute.Upstream`).
  - The audio output's failures and the chunks that arrive during each
    playback are given as lists.
- **Unset environment variables are empty strings**, because the source
  tests them with `!`.

Behaviours of the code as written that the model keeps, with the member
that states each:

- **A frame cut between two chunks is lost** (`ChatStream.SplitFrameIsLost`).
  The client carries nothing from one chunk to the next. If one plain
  delta's frame is split anywhere inside its text, the client finishes
  with empty content. The same bytes in one chunk yield the delta.
- **The conclude suffix is never used** (`SurveyChat.ModelSeesHistory`).
  The chat screen posts `sessionDuration` and `isSessionEnding`, but the
  route reads `shouldConclude`. The system prompt is therefore always the
  base prompt.
- **The posted duration and ending flag are stale**
  (`SurveyChat.FirstSendPostsMountValues`). The send handler is memoized
  on `messages` alone, so it posts the values of the last render in which
  the messages changed. The first send always posts a duration of 0 and
  no ending flag.
- **The summary is never stored** (`Sheets.RowData`). The persistence
  route computes a summary, but the row has no column for it.
- **A duration of 0 is stored as an empty cell** (`Sheets.DurationCell`).
  A missing `latestResponse` is rendered as `undefined` in the summary
  (`SheetsRoute.Summary`).
- **The library's missing-id error cannot surface from `POST`**
  (`SheetsRoute.Post`). The route checks the spreadsheet id itself first.
  `GET` makes no such check, so there a missing id becomes the generic
  initialization failure (`SheetsRoute.Get`).

## Model

| member | source | states |
|---|---|---|
| Text.Split | src/components/SurveyChat.tsx:128 | `split('\n')`: at least one piece, and no piece contains the separator |
| Text.SplitJoin | src/components/SurveyChat.tsx:128 | splitting a join with the same one-character separator gives back the parts when no part contains it |
| Text.JoinSplit | src/components/SurveyChat.tsx:128 | joining the pieces of a split with the separator gives back the string |
| Text.SplitAppend | src/components/SurveyChat.tsx:128 | the pieces of `a + sep + b` are the pieces of `a` followed by those of `b` |
| Text.JoinSnoc | src/lib/sheets.ts:38 | joining one more part appends the separator and the part |
| Text.TrimStart | src/components/ChatInput.tsx:37 | the result is a suffix of the input, every removed character is white space, and it starts with a character that is not |
| Text.TrimEnd | src/components/ChatInput.tsx:37 | the result is a prefix of the input, every removed character is white space, and it ends with a character that is not |
| Text.TrimIsInnerSlice | src/components/ChatInput.tsx:37 | `trim()` is the slice of the input between removed white space on both sides |
| Text.TrimmedEnds | src/components/ChatInput.tsx:37 | a non-empty trimmed string neither starts nor ends with white space |
| Text.TrimEmptyIff | src/components/ChatInput.tsx:37 | a string trims to nothing exactly when every character is white space |
| JsonString.Escape | src/app/api/chat/route.ts:50 | the body `JSON.stringify` writes holds no control character and no line feed |
| JsonString.EscapePlain | src/app/api/chat/route.ts:50 | printable text with no quote and no backslash is written unchanged |
| JsonString.UnescapeEscapeChar | src/components/SurveyChat.tsx:146 | reading back one escaped character yields that character, then the reading of the rest |
| JsonString.UnescapeEscape | src/components/SurveyChat.tsx:146 | `JSON.parse` of what `JSON.stringify` wrote gives back the original string |
| JsonString.HexDigit | src/app/api/chat/route.ts:50 | the hex digit written for a `\u00XX` escape reads back as its value |
| ChatStream.ParseTextPayloadRoundTrip | src/components/SurveyChat.tsx:146-147 | the client reads `text` back from every payload the route writes |
| ChatStream.TextPayloadIsOneLine | src/app/api/chat/route.ts:50 | a payload never contains a line feed and is never the `[DONE]` marker |
| ChatStream.DecodeLinesAppend | src/components/SurveyChat.tsx:130-161 | the line loop is a left fold: two stretches of lines are read one after the other |
| ChatStream.DecodeLinesExtends | src/components/SurveyChat.tsx:148 | accumulated content only grows by appending, and once done the reader stays done |
| ChatStream.DoneLinesAbsorb | src/components/SurveyChat.tsx:133-143 | after `[DONE]` no later line changes the state |
| ChatStream.DoneChunksAbsorb | src/components/SurveyChat.tsx:133-143 | after `[DONE]` no later chunk changes the state |
| ChatStream.SkippedLineIsNoOp | src/components/SurveyChat.tsx:130-159 | a line without `data: `, or one whose payload neither parses nor is the marker, can be removed anywhere without changing the result |
| ChatStream.UnparsableLineIsSkipped | src/components/SurveyChat.tsx:145-159 | a chunk that is one unparsable data line leaves the state unchanged |
| ChatStream.SkippedLineThenBlank | src/components/SurveyChat.tsx:130-131 | a skipped line and the blank line after it leave reading to continue with what follows |
| ChatStream.LineThenBlank | src/components/SurveyChat.tsx:128 | a frame's line and blank line split into the line, an empty piece, and what follows |
| ChatStream.DoneFrameLines | src/app/api/chat/route.ts:53 | the end frame splits into the marker line and two empty pieces |
| ChatStream.EndLinesFinish | src/components/SurveyChat.tsx:133-142 | the end frame's lines finish reading and keep the content |
| ChatStream.EncodedStreamLines | src/app/api/chat/route.ts:47-53 | the complete stream splits into a data line and a blank line per delta, then the end lines |
| ChatStream.FramesLines | src/app/api/chat/route.ts:47-51 | the delta frames alone split into a data line and a blank line per delta, then one empty piece |
| ChatStream.DecodeFrameLines | src/components/SurveyChat.tsx:145-156 | reading the data lines of the deltas appends every delta, in order, and does not finish |
| ChatStream.DecodeEncodedStream | src/components/SurveyChat.tsx:120-153 | the whole stream, read as one chunk, yields exactly the concatenated deltas and sees the marker |
| ChatStream.WholeLineChunks | src/components/SurveyChat.tsx:122-128 | with chunks of whole lines, reading chunk by chunk equals reading the lines of everything received |
| ChatStream.DecodeWholeLineDelivery | src/components/SurveyChat.tsx:120-153 | any whole-line chunking of the stream yields the concatenated deltas and finishes |
| ChatStream.CutStream | src/app/api/chat/route.ts:50-53 | cutting one plain delta's reply inside its text gives two pieces that make up the whole stream |
| ChatStream.FirstPieceIsSkipped | src/components/SurveyChat.tsx:145-159 | the piece before the cut is a data line whose payload never parses, so it is skipped |
| ChatStream.TailLineIsSkipped | src/components/SurveyChat.tsx:131 | the first line after the cut is skipped, whether or not it starts with `data: ` |
| ChatStream.SplitFrameIsLost | src/components/SurveyChat.tsx:127-128 | a frame cut across two chunks loses its delta (empty content, stream finished), though the same bytes in one chunk yield it |
| ChatRoute.Forward | src/app/api/chat/route.ts:36-39 | fails exactly when some entry is `null`; otherwise the forwarded messages keep their number and order and each carries its entry's role and content |
| ChatRoute.TextDeltas | src/app/api/chat/route.ts:48-49 | at most one relayed text per event |
| ChatRoute.TextDeltasExtremes | src/app/api/chat/route.ts:47-51 | a stream of text deltas alone is relayed text for text, in order; a stream without any relays nothing |
| ChatRoute.FramesAppend | src/app/api/chat/route.ts:47-51 | the frames of two stretches of deltas are the frames of each, in order |
| ChatRoute.EncodeStream | src/app/api/chat/route.ts:47-58 | one frame per text delta in arrival order, nothing for other events, then the end frame; a failing model stream gets no end frame and ends with an error |
| ChatRoute.Post | src/app/api/chat/route.ts:6-77 | no API key gives 500 and a non-array `messages` gives 400, both before any model call; a `null` entry in `messages` gives 500 before any model call; otherwise the call carries the fixed model, the token limit, the forwarded messages and the prompt with the suffix exactly when `shouldConclude`; the response is the encoded stream |
| ChatRoute.ConcludeSuffixOnlyWhenAsked | src/app/api/chat/route.ts:27-30 | the system prompt starts with the base prompt and differs from it exactly when `shouldConclude` is set |
| ChatRoute.RelayedTextReachesClient | src/app/api/chat/route.ts:47-54 | the route's reply, read in whole-line chunks, yields the model's text deltas concatenated in order, and the marker |
| ChatRoute.FailedStreamNeverFinishes | src/app/api/chat/route.ts:55-57 | after a failed model stream the client holds the deltas so far and never sees the marker |
| Conversation.RoleName | src/components/SurveyChat.tsx:74 | the user's role is written `user` and the assistant's `assistant`, and no other role gets either name |
| SurveyChat.History | src/components/SurveyChat.tsx:100-103 | the posted history has one entry per message, in order, with its role and content |
| SurveyChat.SetContentById | src/components/SurveyChat.tsx:149-155 | messages with the id get the new content; every other message is unchanged; length and order are kept |
| SurveyChat.SetContentByIdTwice | src/components/SurveyChat.tsx:149-155 | the last write to an id wins |
| SurveyChat.SetContentOfFreshPlaceholder | src/components/SurveyChat.tsx:149-155 | when only the placeholder has its id, an update by id changes the placeholder alone |
| SurveyChat.ShownOverwrite | src/components/SurveyChat.tsx:147-155 | writing the grown accumulator over what is shown equals showing it from the start |
| SurveyChat.SendKeepsHistory | src/components/SurveyChat.tsx:79-91 | a send appends exactly the user message and then the placeholder, and afterwards only the placeholder's content differs |
| SurveyChat.FailureShowsApology | src/components/SurveyChat.tsx:109-118 | a non-ok response, a missing body, or a read failure before the marker leaves the apology in the placeholder |
| SurveyChat.StreamedReplyFillsPlaceholder | src/components/SurveyChat.tsx:120-153 | a whole-line delivery of the route's stream leaves the concatenated deltas in the placeholder |
| SurveyChat.ElapsedSeconds | src/components/SurveyChat.tsx:44 | the duration is the whole seconds elapsed, rounded down |
| SurveyChat.WindDownThreshold | src/components/SurveyChat.tsx:48 | 60 whole seconds are reached exactly when 60000 ms have passed |
| SurveyChat.RouteBody | src/components/SurveyChat.tsx:99-106 | the route reads the client's body as an array with one item per turn |
| SurveyChat.RouteItems | src/components/SurveyChat.tsx:100-103 | each posted item is the turn's role name and content, in order |
| SurveyChat.ModelSeesHistory | src/app/api/chat/route.ts:17 | the model gets the earlier messages and then the new one, in order; `shouldConclude` is always false because the client never sends it |
| SurveyChat.ChatSession.constructor | src/components/SurveyChat.tsx:14-26 | the screen starts with the greeting alone, not loading, no session started |
| SurveyChat.ChatSession.StartSessionTimer | src/components/SurveyChat.tsx:65-69 | the start time is set only if unset |
| SurveyChat.ChatSession.Tick | src/components/SurveyChat.tsx:40-54 | a tick of a running timer records the elapsed whole seconds and marks the session ending from 60 on; the ending flag is never cleared |
| SurveyChat.ChatSession.SendMessage | src/components/SurveyChat.tsx:71-175 | the request carries the history with the user message and the duration and ending flag the memoized handler captured, not the current ones; afterwards the handler captures the current ones; the messages become the sent list with the placeholder filled by the reply text; loading is off in every outcome |
| SurveyChat.ChatSession.ReadReply | src/components/SurveyChat.tsx:120-126 | the chunk loop shows exactly what the decoder yields, or the apology when reading fails before the marker |
| SurveyChat.ChatSession.ReadChunk | src/components/SurveyChat.tsx:127-161 | the line loop's accumulator and stop flag are the decoder's state after the chunk, and the placeholder shows the accumulator |
| ChatInput.StartedSnoc | src/components/ChatInput.tsx:50 | typing has started after one more value exactly when it had before or the value is not empty |
| ChatInput.FiresAtMostOnce | src/components/ChatInput.tsx:50-53 | over any sequence of changes the first-keystroke callback fires once if some value was not empty, and never otherwise |
| ChatInput.ChatInputBox.constructor | src/components/ChatInput.tsx:13-14 | an empty draft, not started typing |
| ChatInput.ChatInputBox.HandleChange | src/components/ChatInput.tsx:45-54 | the draft becomes the new value; the callback fires exactly when not yet started and the value is not empty; the latch only turns on |
| ChatInput.ChatInputBox.HandleSubmit | src/components/ChatInput.tsx:35-43 | the trimmed draft is sent, and the draft cleared, exactly when the trimmed draft is not empty and the input is not disabled |
| ChatInput.ChatInputBox.HandleKeyDown | src/components/ChatInput.tsx:56-61 | Enter without Shift is handled and submits; any other key, Enter with Shift included, sends nothing |
| SurveyChat.FirstSendPostsMountValues | src/components/SurveyChat.tsx:71-106 | however much time the screen has counted, the first send posts a duration of 0 and no ending flag |
| SurveyChat.Submit | src/components/SurveyChat.tsx:211-217 | the box is disabled by `InputDisabled` (loading or ending): a send happens exactly when the box is enabled and the trimmed draft is not empty, and then appends the user turn and the filled placeholder; otherwise the messages and the draft are unchanged |
| SurveyChat.Run | src/components/SurveyChat.tsx:40-69 | over any run of typing, submits and timer ticks, a session that is ending stays ending, and no turn is appended or request sent |
| ChatInput.SentTextIsTrimmed | src/components/ChatInput.tsx:37-38 | what a submit sends is a slice of the draft with no white space at either end |
| WavCodec.ToInt16 | src/app/voice/page.tsx:38 | storing into an `Int16Array` keeps the value modulo 2^16 |
| WavCodec.SampleBytesRoundTrip | src/app/voice/page.tsx:36-38 | joining a sample's low and high byte gives back the sample |
| WavCodec.BytesSampleRoundTrip | src/app/voice/page.tsx:227 | splitting the joined sample gives back both bytes |
| WavCodec.EncodeSamples | src/app/voice/page.tsx:226-228 | two bytes per sample, low byte first, at twice the sample's index |
| WavCodec.DecodeSamples | src/app/voice/page.tsx:32-39 | floor(len/2) samples, sample i joined from bytes 2i and 2i+1 |
| WavCodec.DecodeEncode | src/app/voice/page.tsx:32-39 | decoding inverts the little-endian encoding |
| WavCodec.EncodeDecode | src/app/voice/page.tsx:226-228 | encoding inverts decoding, apart from a trailing odd byte |
| WavCodec.ReadLEOfLE | src/app/voice/page.tsx:161 | reading back k little-endian bytes gives the value written when it fits |
| WavCodec.LE16 | src/app/voice/page.tsx:167 | `setUint16(.., true)`: two bytes that read back as the value modulo 2^16 |
| WavCodec.LE32 | src/app/voice/page.tsx:161 | `setUint32(.., true)`: four bytes that read back as the value modulo 2^32 |
| WavCodec.HeaderParts | src/app/voice/page.tsx:159-176 | the header is 44 bytes: the RIFF part, the fmt part, the rate part and the data part at offsets 0, 12, 24 and 36 |
| WavCodec.HeaderFields | src/app/voice/page.tsx:159-176 | the tags "RIFF", "WAVE", "fmt " and "data" at 0, 8, 12 and 36; every numeric field at its offset |
| WavCodec.HeaderValues | src/app/voice/page.tsx:161-176 | the fields read as file length less 8, 16, 1, 1, the rate, twice the rate, 2, 16 and twice the sample count, each modulo its width |
| WavCodec.WavLayout | src/app/voice/page.tsx:146-180 | the file is 44 + 2n bytes, every header field reads as required, and the bytes after 44 are the encoded samples |
| WavCodec.ParseWavFile | src/app/voice/page.tsx:141-183 | a reader checking every header field against the file recovers the sample rate (mod 2^32) and the exact samples |
| WavCodec.DecodePcm | src/app/voice/page.tsx:32-39 | the decoding loop fills a fresh array with exactly the decoded samples |
| WavCodec.EncodePcm | src/app/voice/page.tsx:222-228 | the encoding loop fills a fresh buffer with exactly the encoded samples |
| WavCodec.Put | src/app/voice/page.tsx:153-157 | a write at an offset extends the finished header prefix and leaves the rest of the buffer alone |
| WavCodec.WriteRiffChunk | src/app/voice/page.tsx:160-162 | the first 12 bytes become the header's RIFF part |
| WavCodec.WriteFmtChunk | src/app/voice/page.tsx:165-168 | bytes 12 to 23 become the fmt tag, size, format and channel count |
| WavCodec.WriteRates | src/app/voice/page.tsx:169-172 | bytes 24 to 35 become the rate, byte rate, block align and sample width |
| WavCodec.WriteDataChunk | src/app/voice/page.tsx:175-176 | bytes 36 to 43 become the data tag and size |
| WavCodec.WriteHeader | src/app/voice/page.tsx:159-176 | the first 44 bytes become the header, and the sample area is left alone |
| WavCodec.CopySamples | src/app/voice/page.tsx:179-180 | the bytes after 44 become the encoded samples, and the header is left alone |
| WavCodec.PcmToWav | src/app/voice/page.tsx:141-183 | a fresh buffer holding exactly the WAV file for the samples and rate |
| VoiceSession.FlattenAppend | src/app/voice/page.tsx:82-89 | the chunks of two stretches of arrivals are those of each, in order |
| VoiceSession.ArrivedStep | src/app/voice/page.tsx:95 | one more playback adds exactly the chunks that arrived during it |
| VoiceSession.ArrivedBound | src/app/voice/page.tsx:82 | the chunks arrived so far never outnumber all that can arrive (the drain terminates) |
| VoiceSession.Kept | src/app/voice/page.tsx:84-88 | only queued chunks are played, in order |
| VoiceSession.KeptWithoutFailures | src/app/voice/page.tsx:82-89 | without failures every queued chunk is played once, in FIFO order |
| VoiceSession.KeptAppend | src/app/voice/page.tsx:84-88 | a failed chunk does not stop the ones after it |
| VoiceSession.PlaybackStep | src/app/voice/page.tsx:82-89 | one iteration plays the head of the queue, which afterwards holds the rest and then the new arrivals |
| VoiceSession.EventTurns | src/app/voice/page.tsx:362-375 | an event adds the agent's response if it is not empty, then the user's transcript if it is neither empty nor `...` |
| VoiceSession.SheetMessages | src/app/voice/page.tsx:125 | the posted transcript keeps order, role names and contents |
| VoiceSession.RoundSeconds | src/app/voice/page.tsx:116 | `Math.round(ms / 1000)` is within half a second of the elapsed time |
| VoiceSession.RenderChunk | src/app/voice/page.tsx:31-42 | a chunk's bytes become the 16 kHz WAV file of its samples |
| VoiceSession.Session.constructor | src/app/voice/page.tsx:19-24 | empty queue, not playing, empty transcript |
| VoiceSession.Session.PlayAudio | src/app/voice/page.tsx:26-73 | the chunk is heard exactly when its playback does not fail; the queue is untouched |
| VoiceSession.Session.ProcessAudioQueue | src/app/voice/page.tsx:75-92 | already playing or empty: nothing happens; otherwise every arrived chunk is taken in FIFO order, the ones that do not fail are heard in order, the queue ends empty and the flag false |
| VoiceSession.Session.QueueAudioResponse | src/app/voice/page.tsx:94-97 | the chunk joins the back of the queue; while a loop plays, only that; otherwise the queue is drained |
| VoiceSession.Session.StopCurrentAudio | src/app/voice/page.tsx:99-107 | the queue is emptied and the flag cleared |
| VoiceSession.Session.OnOpen | src/app/voice/page.tsx:328-333 | the session clock starts and the transcript is cleared |
| VoiceSession.Session.HandleMessage | src/app/voice/page.tsx:357-392 | the transcript gains exactly the event's entries; non-empty audio is queued; a ping is answered with its id; an unreadable message changes nothing; the transcript's invariant is kept |
| VoiceSession.Session.SubmitConversation | src/app/voice/page.tsx:109-131 | nothing is sent for an empty transcript; otherwise the transcript, its last content, the rounded duration (0 without a start) and both flags false |
| VoiceSession.VoiceSummaryIsLatestResponse | src/app/api/sheets/route.ts:36 | a voice submission's summary is the latest response alone |
| Sheets.Lines | src/lib/sheets.ts:38 | one `role: content` line per message, in order |
| Sheets.LinesAppend | src/lib/sheets.ts:38 | the lines of two stretches of messages are the lines of each |
| Sheets.ConversationTextSnoc | src/lib/sheets.ts:38 | one more message adds a blank line and its line at the end (or is the whole text if first) |
| Sheets.ConversationTextStart | src/lib/sheets.ts:38 | the text starts with the first message's line |
| Sheets.ConversationTextEmpty | src/lib/sheets.ts:38 | the text is empty exactly when there are no messages |
| Sheets.DurationCell | src/lib/sheets.ts:45 | the duration cell is empty exactly when the duration is missing or 0, and otherwise the number |
| Sheets.RowData | src/lib/sheets.ts:42-60 | 17 cells: timestamp, session id, duration, 13 empty cells, conversation text |
| Sheets.StrCells | src/lib/sheets.ts:91-97 | one string cell per name, in order |
| Sheets.HeaderMatchesRow | src/lib/sheets.ts:91-97 | the header and the row both have 17 columns, and each filled column of the row sits under its name |
| Sheets.HeaderNamesDistinct | src/lib/sheets.ts:91-97 | no two column names are equal |
| Sheets.WithHeader | src/lib/sheets.ts:86-99 | the update of A1:Q1 sets the leading cells of the first row and leaves everything else |
| Sheets.WithHeaderIdempotent | src/lib/sheets.ts:85 | writing the header again, even after rows were appended, changes nothing |
| Sheets.Spreadsheet.constructor | src/lib/sheets.ts:16 | the sheet holds the given rows |
| Sheets.SaveConversationToSheets | src/lib/sheets.ts:30-75 | no id: throws before touching the sheet; otherwise appends exactly one row, or rethrows the API error with the sheet unchanged |
| Sheets.InitializeSheet | src/lib/sheets.ts:77-104 | no id: throws before touching the sheet; otherwise writes the header row, or rethrows with the sheet unchanged |
| SheetsRoute.SummaryShape | src/app/api/sheets/route.ts:36 | the summary starts with the latest response, then the abrupt-exit tag if set, then the auto-save tag if set, and nothing else |
| SheetsRoute.ErrorMessage | src/app/api/sheets/route.ts:50-68 | a message naming the spreadsheet-id variable maps to "configuration missing", one naming the key file to "credentials missing", anything else to the generic failure |
| SheetsRoute.MissingIdIsConfigurationMissing | src/app/api/sheets/route.ts:51-56 | the library's missing-id error maps to "configuration missing" |
| SheetsRoute.Post | src/app/api/sheets/route.ts:5-70 | a missing credential gives 500 and a non-array conversation 400, both before any sheet call; the sheet is initialized before the row is saved; a `null` entry in the conversation gives 500 after the header is written and before any row; success returns the saved session id; every error maps to 500 |
| SheetsRoute.Get | src/app/api/sheets/route.ts:72-86 | initialized exactly when the id is set and the call succeeds; otherwise the generic failure with the sheet unchanged |
| SheetsRoute.SavedRowCarriesRequest | src/app/api/sheets/route.ts:28-44 | after a successful save the last row carries the returned session id, the posted duration and the posted conversation's text, under a header that stays stable |

## Left out

- Browser and network I/O is not modelled. This covers `fetch`, the
  stream reader and `TextDecoder`/`TextEncoder`, the WebSocket's
  connect/auth/init messages, `getUserMedia`, `AudioContext`, the `Audio`
  element, Blob URLs and `requestAnimationFrame`. Received chunks, events
  and playback outcomes are parameters instead.
- The Float32 to Int16 clamp of captured audio and the audio-level meter
  are left out, because they are floating-point code.
- `atob`/`btoa` (base64, section 4 of RFC 4648) are left out. Audio chunks
  are modelled as the bytes they decode to.
- The language-model SDK, the `googleapis` client and `uuid` are foreign
  libraries. They become parameters: the model's event stream, the API
  call outcomes and the session id.
- Timers and focus handling (`setInterval`, `setTimeout`, DOM focus,
  scrolling) are left out. The session timer is a `Tick` method taking the
  current time. The `isAISpeaking` display flag and `currentAudioRef` are
  left out too.
- The ElevenLabs relay routes, the suggestions route, `ElevenLabsTest.tsx`,
  `ChatMessage.tsx`, the landing and 404 pages, and `next.config.js` are
  not part of this model. They are credential relays or rendering.
- ChatStream.ParseTextPayload: recognises only the object shape
  `{"text":"..."}` that the route writes. Other valid JSON (extra keys,
  white space, a non-string `text`) counts as unparsable and is skipped,
  where the client would accept it.
- JsonString.Unescape: refuses `\u` escapes that name a surrogate, so the
  surrogate pairs `JSON.parse` accepts are not read.
- Message ids are the millisecond clock numbers rather than their
  decimal strings. Two ids are equal exactly when their strings
  are, so update-by-id behaves the same.
- SurveyChat.ChatSession.SendMessage: the reply is read in full before
  the method returns. React's batching and the order in which state
  updates render are not modelled. The handler captures its values once,
  at the end of the send. Timer ticks are not interleaved with a send, so
  these are the values from when the send began. The source can capture a
  later tick's values if that tick comes before the last message update
  of the stream.
- ChatRoute.Post and SheetsRoute.Post: an array entry is an object with
  string `role` and `content`, or `null`. A non-string field is not
  modelled. The chat route forwards it unchanged to the model service,
  whose validation is not part of this model. The spreadsheet library
  renders it through template-string conversion. An entry that is a
  number or a string is not modelled either: its `role` and `content`
  read as `undefined` instead of throwing.
- VoiceSession.Session.ProcessAudioQueue: the asynchronous playback loop
  is sequential here. The chunks that arrive while each chunk plays are a
  parameter, so no other handler interleaves with the loop. If
  `stopCurrentAudio` runs during a playback, the source can end up with a
  second loop running; this model does not capture that.
- VoiceSession.Session.HandleMessage: the queue is drained before the
  pong is produced. In the source the pong is sent as soon as the drain
  first waits on playback.
- WavCodec.CopySamples: `Int16Array.set` writes in the platform's byte
  order. The model writes little-endian, which is what the WAV header
  declares.
- Sheets.SaveConversationToSheets: role values are kept as the strings
  the caller sent. The `timestamp` field of incoming messages and the
  record's `summary` are carried but never written, as in the source.
