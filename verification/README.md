# jiuqi-runner bridge, modelled in Dafny

`run.py` links a hosted game board to a local move engine. At start-up it reads
the API base URL, strips its trailing slashes and derives a WebSocket URL. It
then opens a STOMP connection. When the socket opens, it sends the CONNECT
handshake, starts the Java engine, and sends the engine its start-up line. When
the broker confirms the connection, the client looks its board up over HTTP and
subscribes to that board's `next_step` topic.

Each MESSAGE frame goes through these steps:

- A one-second debounce gate checks when the last message finished.
- The board is encoded into a 196-character string over `z`, `0` and `Z`.
- The encoding and a stage digit are written to the engine.
- Two lines are read back. The first is stripped and decoded.
- The decoded board is recorded, then published with an HTTP update call.

The model is functional. Each callback is a pure function. It takes the client's
fields (`Session.Client`) plus everything it would read from outside
(`Session.World`: the lookup result, clock readings, the `randint` draw, the
engine's reply line and whether the update request went through). It returns
the new fields, the ordered list of effects it issues (`Session.Effect`) and,
when the Python code would raise, a `Session.Fault`. Time is whole milliseconds.

Files:

- `wrappers.dfy`: `Option`.
- `decimal.dfy`: Python's `str(int)` and `f'{n:03}'`, and the digit value that inverts them.
- `text.dfy`: Python slicing, `str.strip()` with Python's 29 whitespace code points, and a first-index search used to read subscription ids back.
- `board_codec.dfy`: `state2z` as `Encode` and `z2state` as `Decode`, with their round-trip laws.
- `endpoints.dfy`: `API_URL` trimming, `WS_URL`, the request URLs, the topic and `generate_sub_id`.
- `session.dfy`: `on_open`, `subscribe`, `update_board` and `on_message` as step functions.
- `trace.dfy`: runs over a sequence of delivered frames.

Notes on how `run.py` behaves, which the model follows:

- There is no content deduplication. `last_state` is written but never read.
- `z2state` does not check the string's length. A short string gives short or empty rows, and characters after the 196th are ignored.
- `state2z` does not check the grid's shape.
- The board lookup runs again on every CONNECTED frame outside the debounce window.
- An engine or decoding failure does not end the session. The websocket library passes the exception to `on_error` and keeps delivering frames.

## Model

| member | source | states |
|---|---|---|
| BoardCodec.SymbolOf | run.py:35 | the `state2z` table sends -1, 0, 1 to an alphabet symbol that the `z2state` table maps back to the same cell |
| BoardCodec.CellOf | run.py:31 | the `z2state` table sends each alphabet symbol to a cell, `z` exactly to -1 and `Z` exactly to 1 (so `0` to 0) |
| BoardCodec.Encode | run.py:34-35 | `state2z` succeeds exactly when every cell of every row is -1, 0 or 1 (any shape); its length is the total number of cells |
| BoardCodec.EncodeAt | run.py:34-35 | for a grid of any shape, cell (i,j) is encoded at position j plus the number of cells in rows 0..i-1, as that cell's symbol |
| BoardCodec.EncodeContents | run.py:34-35 | for a grid of any shape, ragged rows included, every cell's symbol sits at its position in the encoding: the rows are concatenated in order |
| BoardCodec.EncodeRow | run.py:35 | one row's join succeeds exactly when all its cells are in the table; character j is the symbol of cell j |
| BoardCodec.DecodeRow | run.py:31 | one row's list succeeds exactly when all its characters are in the alphabet; cell k is the value of character k |
| BoardCodec.Decode | run.py:30-31 | `z2state` fails exactly when one of the first 196 characters is outside the alphabet; otherwise 14 rows, row i as long as the clamped slice `z[14i:14i+14]`, cell (i,j) the value of character 14i+j |
| BoardCodec.EncodeIndex | run.py:34-35 | for rows of 14 cells, the encoding has 14 characters per row and character 14i+j is the symbol of cell (i,j) |
| BoardCodec.EncodeBoardIsEncoding | run.py:34-35 | a 14x14 board encodes to a 196-character string over the alphabet |
| BoardCodec.GridRoundTrip | run.py:30-35 | for every 14x14 board, `z2state(state2z(g)) == g` |
| BoardCodec.StringRoundTrip | run.py:30-35 | every 196-character string over the alphabet decodes to a 14x14 board whose encoding is the string again |
| BoardCodec.DecodeIgnoresTail | run.py:31 | characters beyond the 196th do not affect `z2state` |
| BoardCodec.EncodeInjective | run.py:34-35 | distinct boards have distinct encodings |
| Text.Slice | run.py:31 | Python's `z[lo:hi]` clamps both ends to the length: the result is as long as the clamped range and character k is character lo+k of the input |
| Text.Drop | run.py:21 | Python's `s[n:]` has length `len(s) - n`, or 0 when the string is shorter, and its character k is character n+k of `s` |
| Text.LeadingSpace | run.py:92 | the count of leading whitespace characters: all of them are whitespace and the next one, if any, is not |
| Text.TrailingSpace | run.py:92 | where the trailing whitespace of a range begins: everything from there to the end is whitespace and the character before it, inside the range, is not |
| Text.Strip | run.py:92 | `strip()` returns the infix from the end of the leading whitespace to the start of the trailing whitespace (so only whitespace is removed, by the two counts' contracts), and neither end of the result is whitespace |
| Text.StripSurrounded | run.py:92 | stripping any whitespace around a trimmed string gives exactly that string |
| Decimal.NatToString | run.py:27 | `str(n)` is a non-empty digit string with no leading zero, one digit exactly when n < 10 |
| Decimal.NatToStringValue | run.py:27 | the digit value of `str(n)` is n |
| Decimal.NatToStringInjective | run.py:27 | distinct timestamps render differently |
| Decimal.IntToString | run.py:53 | `str(i)` of a board id is non-empty, starts with `-` exactly for negative ids, its digits (after the sign) have the absolute value of i as their value, and it has no leading zero except for `0` itself |
| Decimal.IntToStringInjective | run.py:53 | distinct board ids, negative ones included, render differently |
| Decimal.ZeroPad3 | run.py:27 | `f'{n:03}'` is all digits with value n, three characters long unless `str(n)` is longer, in which case it is exactly as long |
| Decimal.ZeroPad3Value | run.py:27 | `f'{n:03}'` keeps the value of n and is exactly three digits for n in 0..999 |
| Endpoints.ApiUrlSetting | run.py:15 | a set, non-empty variable is used as it is; an unset or empty one selects the default `https://chess.cslab.top/api`; the setting is never empty |
| Endpoints.TrimTrailingSlashes | run.py:18-20 | the trim fails exactly when the URL is all slashes; otherwise it is a non-empty prefix with no trailing `/`, and only `/` characters were removed |
| Endpoints.TrimIdempotent | run.py:18-20 | trimming a trimmed URL changes nothing |
| Endpoints.TrimIgnoresTrailingSlashes | run.py:18-20 | appending any number of slashes does not change the trimmed result |
| Endpoints.NormalizeApiUrl | run.py:18-20 | the trim guarded by `if API_URL:`: an empty URL stays empty, a non-empty all-slash URL makes the loop index an empty string (None), any other URL loses exactly its trailing slashes |
| Endpoints.Configure | run.py:15-21 | configuration fails exactly when the setting is all slashes; otherwise the API URL is the setting with its trailing slashes trimmed, so non-empty with no trailing slash, and the WebSocket URL is derived from it |
| Endpoints.WsUrl | run.py:21 | `WS_URL` is `ws`, then the API URL from its fifth character on (nothing when it is shorter), then `/ws/no_sockjs` |
| Endpoints.WsUrlScheme | run.py:21 | `https://` becomes `wss://` and `http://` becomes `ws://`, with `/ws/no_sockjs` appended |
| Endpoints.SubId | run.py:24-27 | the id starts with `sub-`; for a draw in 0..999 it ends with `-` and three digits |
| Endpoints.SubIdRoundTrip | run.py:24-27 | the id reads back, by a parser that accepts the timestamp only without leading zeros as `str` writes it, as its timestamp and random draw; for a draw in 0..999 the suffix is the three-digit padding |
| Endpoints.SubIdInjective | run.py:24-27 | different (timestamp, draw) pairs give different ids |
| Endpoints.FindBoardUrl | run.py:51 | the lookup URL is the API base followed by `/boards/find?game=1&user=10170` |
| Endpoints.UpdateBoardUrl | run.py:59 | the update URL is the API base, `/boards/`, `str(board_id)` and `/update`, in that order |
| Endpoints.UpdateBoardUrlInjective | run.py:59 | under one API base, different board ids give different update URLs |
| Endpoints.NextStepTopic | run.py:53 | the topic is `/topic/boards/`, `str(board_id)` and `/next_step`, in that order |
| Endpoints.NextStepTopicInjective | run.py:53 | different board ids give different subscription topics |
| Session.Open | run.py:63-70 | the handshake goes first, then the engine starts; the engine is sent `-1` and one line is read back; the client starts with `finished_at = 0` and no board id |
| Session.Subscribe | run.py:50-54 | one lookup request goes first; on success the board id is the looked-up one and one auto-ack subscription follows, to that board's `next_step` topic, with an id that reads back as (clock, draw); on failure nothing changes, nothing is subscribed and the step reports the fault |
| Session.UpdateBoardCall | run.py:56-61 | the update request is issued exactly when the board id is set and non-zero, for that board and the given state; an unset or zero id is a fault with no request; a request that raises is the publish fault |
| Session.StageDigit | run.py:84 | the digit is `1` exactly when the stage is `PLAY`, else `0` |
| Session.Publish | run.py:95-97 | the decoded board is recorded as `last_state` whatever happens next; the update request is the only effect; `finished_at` moves, to the end-of-processing clock, exactly when the board id is set and non-zero and the request went through |
| Session.Consult | run.py:88-97 | the engine first receives the encoding and the stage digit and is read twice, and then exactly when the reply decodes and the board id is set and non-zero the update request follows, to that board's update URL and carrying the decoded board, whether or not it goes through; whenever the stripped reply decodes, `last_state` becomes that board, even if the update then fails; otherwise it is unchanged; the step succeeds exactly when the reply decodes and the update succeeds; the board id is untouched; `finished_at` moves only on success, to the end-of-processing clock |
| Session.HandleMessage | run.py:82-97 | a cell outside -1, 0, 1 stops the frame with a fault and no effects; otherwise the engine is written the encoding and then the stage digit, and the engine traffic of the frame is exactly that one request (two writes, two reads), or nothing when encoding fails; the step succeeds exactly when encode, decode and update all succeed; the board id is untouched; `finished_at` moves only on success, to the end-of-processing clock |
| Session.OnMessage | run.py:72-97 | inside the debounce window nothing happens, whatever the frame; `finished_at` changes only after a processed MESSAGE; the board id changes only on CONNECTED, to the lookup result; other frames are no-ops |
| Session.DebounceBoundary | run.py:74-78 | a frame exactly one second after `finished_at` is still dropped; one millisecond later a CONNECTED frame is handled |
| Session.ExchangeFramed | run.py:88-93 | a single engine request, two lines written then two read, is well framed |
| Session.ConsultFramed | run.py:88-97 | the engine traffic of processing one encoded board is exactly the encoding written, the stage digit written and two reads, whatever the reply and the update do, and it is framed |
| Session.StepFramed | run.py:84-93 | every `on_message` step leaves the engine between requests: its engine traffic is whole write-write-read-read groups |
| Session.ConsultUpdate | run.py:92-96 | after an engine request, an update request is the fifth and last effect, needs a non-zero board id, and carries the recorded board, which is the decoded stripped reply |
| Session.PublishedIsRecorded | run.py:92-96 | the published board equals `last_state` and the decoded stripped reply; it is issued only for a MESSAGE outside the window with a non-zero board id, at most once, as the last effect |
| Session.ConnectedSubscribesOnce | run.py:50-54 | CONNECTED with a successful lookup issues exactly one lookup, then exactly one subscription to `/topic/boards/{id}/next_step` |
| Session.StripEncodingLine | run.py:92 | the engine's newline-terminated encoding strips to the bare encoding |
| Session.MessageIsConsult | run.py:74-92 | outside the debounce window, a MESSAGE whose board encodes is handled by consulting the engine with that encoding and the frame's stage |
| Session.EngineEofPublishesEmptyRows | run.py:92-96 | an engine that has exited answers `readline()` with the empty string, which decodes to 14 empty rows; those are recorded and, for a non-zero board id, published after the usual exchange |
| Session.StepNeverReopens | run.py:63-97 | no `on_message` step sends the CONNECT frame again or starts another engine |
| Session.ConsultSuccess | run.py:88-97 | on the success path the effects are the four engine steps then one update, and the client records the board and the finish time |
| Session.EndToEndMove | run.py:82-97 | if the engine answers with a board's encoding, the request's encoding and stage go to the engine and exactly that board is published once and recorded |
| Session.EngineLogAppend | run.py:88-93 | the engine traffic of two effect lists in sequence is the two traffics concatenated |
| Session.FramedAppend | run.py:88-93 | framed engine traffic followed by framed traffic is framed |
| Trace.Run | run.py:72-97 | feeding frames one by one, no effect of the run is a handshake or an engine start |
| Trace.RunSession | run.py:63-97 | over a whole session the handshake is the first effect and the only raw send, and the engine start is the second effect and the only one |
| Trace.RunFramed | run.py:84-93 | across any run of delivered frames, no engine request starts before the previous one was read back |
| Trace.SessionEngineProtocol | run.py:63-93 | over a whole session the engine sees `-1` and one read, then only framed requests |
| Trace.FinishedAtMonotone | run.py:74-97 | with a clock that does not run backwards, the end of the debounce window never moves backwards |
| Trace.BoardIdNeedsConnected | run.py:50-52 | without a CONNECTED frame the board id never changes |

## Left out

- Transport, HTTP and the engine process are not executed. `websocket.WebSocketApp`, `run_forever`, `send`, `requests.get` and `Popen` appear only as effects, and their results appear as `World` inputs.
- `stomper.unpack_frame`, `stomper.subscribe`, `json.loads` and `json.dumps` are library code. A frame is an already-decoded `Frame`. A subscription is an effect carrying (destination, id, ack). The update request carries the grid, not its JSON text.
- A MESSAGE body with missing `stage` or `state` keys, or non-integer cells, is not modelled. `Body` is always a stage string and a grid of integers.
- HTTP status codes are not modelled. A failed lookup (an exception, or no `data.id` in the JSON) is `World.lookup == None`. An update request that raises is `World.delivered == false`.
- The engine's second reply line is read and discarded (the `EngineRead` effect). Its content is not modelled.
- Session.OnMessage: the gate compares whole milliseconds (`finishedAt + 1000 >= now`) rather than float seconds from `time()`.
- Endpoints.SubId: the timestamp is a natural-number parameter rather than `floor(time() * 1000)`, and the draw is a parameter rather than `randint(0, 999)`.
- `print` logging, `on_error`, `on_close`, the `JAR_PATH` setting and the engine command line, and the `__main__` start-up check are not modelled.
- Writes to an engine that has exited raise `BrokenPipeError` in Python. The model has no engine liveness, so an `EngineWrite` always succeeds.
- A hung engine blocks `readline()` forever, since it has no timeout. The model's engine always answers, with `World.reply`. The engine's end of file is the reply `""` (see `Session.EngineEofPublishesEmptyRows`).
- `ws.send` of the subscription raising (a closed socket) is not modelled. `Session.Subscribe` always issues its subscription after a successful lookup.
- A `data.id` that is null, a string or any non-integer is not modelled. `World.lookup` is an `Option<int>`, so it cannot express the topic `/topic/boards/None/next_step` that `str(None)` would give. For such an id, `update_board` raises `RuntimeError` when the value is falsy, or requests a URL built from its text.
- Concurrency is not modelled. The websocket library delivers frames one at a time to callbacks that run to completion, so a run is a sequence of steps.
