/** The runner's WebSocket client (`Client` in run.py) as a pure state machine.
    Each callback becomes a function from the client's fields and the inputs it
    would read from the outside world (clock, HTTP replies, engine output, random
    draw) to the new fields plus the ordered list of effects it issues. A Python
    exception raised inside a callback ends that callback: the effects issued
    before it stand, later assignments do not happen, and the step reports a fault. */
module Session {
  import opened Wrappers
  import opened Text
  import opened BoardCodec
  import opened Endpoints

  /** The debounce window: one second on the model's millisecond clock. */
  const DebounceMs: nat := 1000

  /** The STOMP handshake sent when the socket opens. */
  const ConnectFrame: string := "CONNECT\naccept-version:1.0,1.1,2.0\n\n\U{0}\n"

  /** The line written to the engine at start-up: "no previous board". */
  const NoPreviousBoard: string := "-1"

  /** The decoded JSON body of a MESSAGE frame. */
  datatype Body = Body(stage: string, state: Grid)

  /** A decoded STOMP frame, by command. */
  datatype Frame = Connected | Message(body: Body) | OtherFrame(command: string)

  /** What a callback does to the outside world, in order. */
  datatype Effect =
    | SendRaw(frame: string)                                // `ws.send` of a literal frame
    | StartEngine                                           // `Popen` of the engine process
    | HttpGet(url: string)                                  // the board lookup request
    | SendSubscribe(destination: string, id: string, ack: string)
    | EngineWrite(line: string)                             // one line to the engine's stdin
    | EngineRead                                            // one `readline` from its stdout
    | UpdateBoard(url: string, state: Grid)                 // the board update request

  /** Why a callback stopped early. */
  datatype Fault =
    | LookupFailed          // the lookup request raised or its JSON had no `data.id`
    | CellOutOfRange        // `state2z` met a cell outside {-1, 0, 1} (KeyError)
    | SymbolOutOfAlphabet   // `z2state` met a character outside the alphabet (KeyError)
    | BoardIdUnset          // `update_board` before any lookup (AttributeError)
    | BoardIdZero           // `update_board` with board id 0 (RuntimeError)
    | PublishFailed         // the update request raised

  /** Everything a callback reads from outside the client. */
  datatype World = World(
    lookup: Option<int>,   // board id returned by the lookup, None when it fails
    clock: nat,            // millisecond clock read by `generate_sub_id`
    random: nat,           // the `randint(0, 999)` draw
    reply: string,         // the first line the engine answers, as `readline` returns it
    delivered: bool,       // the update request returned without raising
    doneAt: nat)           // millisecond clock read at the end of a processed message

  /** The client's fields. `lastState` is written but never read by the runner. */
  datatype Client = Client(finishedAt: nat, boardId: Option<int>, lastState: Option<Grid>)

  /** The outcome of one callback. */
  datatype Step = Step(client: Client, effects: seq<Effect>, fault: Option<Fault>)

  /** A freshly constructed client: `finished_at = 0`, no board id, no last state. */
  const Initial: Client := Client(0, None, None)

  /** The window during which every incoming frame is dropped unprocessed. */
  predicate Gated(c: Client, now: nat) {
    c.finishedAt + DebounceMs >= now
  }

  /** `on_open`: handshake, start the engine, send it the start-up line and
      discard its first line. */
  function Open(): (r: Step)
    ensures r.client == Initial && r.fault.None?
    ensures |r.effects| == 4 && r.effects[0] == SendRaw(ConnectFrame) && r.effects[1] == StartEngine
    ensures EngineLog(r.effects) == [EngineWrite(NoPreviousBoard), EngineRead]
  {
    var e := [SendRaw(ConnectFrame), StartEngine, EngineWrite(NoPreviousBoard), EngineRead];
    assert e[1..][1..][1..][1..] == [];
    assert EngineLog(e) == EngineLog(e[1..][1..]);
    Step(Initial, e, None)
  }

  /** `Client.subscribe`: look the board up, remember its id, subscribe to its
      next-step topic with a fresh id and automatic acknowledgement. */
  function Subscribe(api: string, c: Client, w: World): (r: Step)
    ensures 1 <= |r.effects| <= 2 && r.effects[0] == HttpGet(FindBoardUrl(api))
    ensures r.client.finishedAt == c.finishedAt && r.client.lastState == c.lastState
    ensures w.lookup.None? ==> r.client == c && |r.effects| == 1 && r.fault == Some(LookupFailed)
    ensures w.lookup.Some? ==> r.client.boardId == w.lookup && r.fault.None? && |r.effects| == 2
    ensures w.lookup.Some? ==> r.effects[1].SendSubscribe? && r.effects[1].ack == "auto"
    ensures w.lookup.Some? ==> r.effects[1].destination == NextStepTopic(w.lookup.value)
    ensures w.lookup.Some? ==> ParseSubId(r.effects[1].id) == Some((w.clock, w.random))
  {
    var lookup := HttpGet(FindBoardUrl(api));
    match w.lookup
    case None => Step(c, [lookup], Some(LookupFailed))
    case Some(id) =>
      SubIdRoundTrip(w.clock, w.random);
      Step(c.(boardId := Some(id)), [lookup, SendSubscribe(NextStepTopic(id), SubId(w.clock, w.random), "auto")], None)
  }

  /** `Client.update_board`: refuse without a (non-zero) board id, otherwise issue
      the update request for that board. The client's fields are untouched. */
  function UpdateBoardCall(api: string, c: Client, g: Grid, delivered: bool): (r: Step)
    ensures r.client == c
    ensures |r.effects| <= 1
    ensures |r.effects| == 1 <==> c.boardId.Some? && c.boardId.value != 0
    ensures |r.effects| == 1 ==> r.effects[0] == UpdateBoard(UpdateBoardUrl(api, c.boardId.value), g)
    ensures r.fault.None? <==> |r.effects| == 1 && delivered
    ensures |r.effects| == 1 && !delivered ==> r.fault == Some(PublishFailed)
    ensures c.boardId.None? ==> r.fault == Some(BoardIdUnset)
    ensures c.boardId == Some(0) ==> r.fault == Some(BoardIdZero)
  {
    match c.boardId
    case None => Step(c, [], Some(BoardIdUnset))
    case Some(id) =>
      if id == 0 then Step(c, [], Some(BoardIdZero))
      else Step(c, [UpdateBoard(UpdateBoardUrl(api, id), g)], if delivered then None else Some(PublishFailed))
  }

  /** `1` for the play stage, `0` for any other. */
  function StageDigit(stage: string): (d: string)
    ensures d == "1" <==> stage == "PLAY"
    ensures d == "0" <==> stage != "PLAY"
  {
    if stage == "PLAY" then "1" else "0"
  }

  /** The end of the MESSAGE branch: record the engine's board as the last state,
      publish it, and only when the publication went through restart the debounce
      window. */
  function Publish(api: string, c: Client, g: Grid, w: World): (r: Step)
    ensures r.client.boardId == c.boardId && r.client.lastState == Some(g)
    ensures r.effects == UpdateBoardCall(api, c, g, w.delivered).effects
    ensures r.fault.None? <==> c.boardId.Some? && c.boardId.value != 0 && w.delivered
    ensures r.client.finishedAt == if r.fault.None? then w.doneAt else c.finishedAt
  {
    var recorded := c.(lastState := Some(g));
    var update := UpdateBoardCall(api, recorded, g, w.delivered);
    if update.fault.Some? then Step(recorded, update.effects, update.fault)
    else Step(recorded.(finishedAt := w.doneAt), update.effects, None)
  }

  /** The four engine steps of one request: the encoding, the stage digit, two reads. */
  function Exchange(z: string, stage: string): (e: seq<Effect>)
    ensures |e| == 4 && e[0] == EngineWrite(z) && e[1] == EngineWrite(StageDigit(stage))
    ensures e[2] == EngineRead && e[3] == EngineRead
  {
    [EngineWrite(z), EngineWrite(StageDigit(stage)), EngineRead, EngineRead]
  }

  /** The MESSAGE branch once the board is encoded: one engine request (the
      encoding, the stage digit, two reads), then decode the stripped first reply
      line, record it, publish it, and only then restart the debounce window. */
  function Consult(api: string, c: Client, z: string, stage: string, w: World): (r: Step)
    ensures |r.effects| >= 4 && r.effects[..4] == Exchange(z, stage)
    ensures |r.effects| <= 5 && (|r.effects| == 5 ==> r.effects[4].UpdateBoard?)
    ensures |r.effects| == 5 <==> Decode(Strip(w.reply)).Some? && c.boardId.Some? && c.boardId.value != 0
    ensures |r.effects| == 5 ==>
              r.effects[4] == UpdateBoard(UpdateBoardUrl(api, c.boardId.value), Decode(Strip(w.reply)).value)
    ensures r.client.boardId == c.boardId
    ensures Decode(Strip(w.reply)).Some? ==> r.client.lastState == Decode(Strip(w.reply))
    ensures Decode(Strip(w.reply)).None? ==> r.client.lastState == c.lastState
    ensures r.fault.None? <==> Decode(Strip(w.reply)).Some? && c.boardId.Some? && c.boardId.value != 0 && w.delivered
    ensures r.client.finishedAt == if r.fault.None? then w.doneAt else c.finishedAt
  {
    var exchange := Exchange(z, stage);
    match Decode(Strip(w.reply))
    case None => Step(c, exchange, Some(SymbolOutOfAlphabet))
    case Some(g) =>
      var published := Publish(api, c, g, w);
      assert (exchange + published.effects)[..4] == exchange;
      Step(published.client, exchange + published.effects, published.fault)
  }

  /** The MESSAGE branch of `on_message`: a cell outside {-1, 0, 1} makes `state2z`
      fail (`Encode` is None exactly then) and stops the frame before the engine is
      touched; otherwise the engine is consulted with the encoding, and nothing but
      that one request reaches the engine. */
  function HandleMessage(api: string, c: Client, body: Body, w: World): (r: Step)
    ensures Encode(body.state).None? ==> r == Step(c, [], Some(CellOutOfRange))
    ensures Encode(body.state).Some? ==>
              && |r.effects| >= 4
              && r.effects[0] == EngineWrite(Encode(body.state).value)
              && r.effects[1] == EngineWrite(StageDigit(body.stage))
    ensures r.fault.None? <==>
              Encode(body.state).Some? && Decode(Strip(w.reply)).Some?
              && c.boardId.Some? && c.boardId.value != 0 && w.delivered
    ensures r.client.boardId == c.boardId
    ensures r.client.finishedAt == if r.fault.None? then w.doneAt else c.finishedAt
    ensures EngineLog(r.effects) ==
              if Encode(body.state).Some? then Exchange(Encode(body.state).value, body.stage) else []
  {
    match Encode(body.state)
    case None => Step(c, [], Some(CellOutOfRange))
    case Some(z) =>
      ConsultFramed(api, c, z, body.stage, w);
      Consult(api, c, z, body.stage, w)
  }

  /** `on_message`: the debounce gate first, then dispatch on the frame's command. */
  function OnMessage(api: string, c: Client, now: nat, frame: Frame, w: World): (r: Step)
    ensures Gated(c, now) ==> r == Step(c, [], None)
    ensures r.client.finishedAt != c.finishedAt ==>
              frame.Message? && !Gated(c, now) && r.fault.None? && r.client.finishedAt == w.doneAt
    ensures r.client.boardId != c.boardId ==> frame.Connected? && r.client.boardId == w.lookup
    ensures frame.OtherFrame? ==> r == Step(c, [], None)
  {
    if Gated(c, now) then Step(c, [], None)
    else match frame
      case Connected => Subscribe(api, c, w)
      case Message(body) => HandleMessage(api, c, body, w)
      case OtherFrame(_) => Step(c, [], None)
  }

  /** The engine's side of the effects: its writes and reads, in order. */
  function EngineLog(effects: seq<Effect>): (log: seq<Effect>)
    ensures |log| <= |effects|
    ensures forall k :: 0 <= k < |log| ==> log[k].EngineWrite? || log[k].EngineRead?
  {
    if |effects| == 0 then []
    else if effects[0].EngineWrite? || effects[0].EngineRead? then [effects[0]] + EngineLog(effects[1..])
    else EngineLog(effects[1..])
  }

  /** The engine protocol: requests of two written lines, each followed by
      exactly two reads before the next request starts. */
  predicate Framed(log: seq<Effect>) {
    |log| == 0 ||
    (|log| >= 4 && log[0].EngineWrite? && log[1].EngineWrite? && log[2].EngineRead? && log[3].EngineRead?
     && Framed(log[4..]))
  }

  lemma {:induction false} EngineLogAppend(a: seq<Effect>, b: seq<Effect>)
    ensures EngineLog(a + b) == EngineLog(a) + EngineLog(b)
  {
    if |a| > 0 {
      assert (a + b)[1..] == a[1..] + b;
      EngineLogAppend(a[1..], b);
    } else {
      assert a + b == b;
    }
  }

  lemma {:induction false} FramedAppend(a: seq<Effect>, b: seq<Effect>)
    requires Framed(a) && Framed(b)
    ensures Framed(a + b)
  {
    if |a| > 0 {
      assert (a + b)[4..] == a[4..] + b;
      FramedAppend(a[4..], b);
    } else {
      assert a + b == b;
    }
  }

  /** One engine request, as the MESSAGE branch issues it, is framed. */
  lemma ExchangeFramed(z: string, stage: string)
    ensures var e := Exchange(z, stage);
            EngineLog(e) == e && Framed(e)
  {
    var e := Exchange(z, stage);
    assert EngineLog(e[3..]) == [EngineRead] + EngineLog(e[4..]);
    assert EngineLog(e[2..]) == [EngineRead] + EngineLog(e[2..][1..]);
    assert e[2..][1..] == e[3..];
    assert EngineLog(e[1..]) == [e[1]] + EngineLog(e[1..][1..]);
    assert e[1..][1..] == e[2..];
    assert e[4..] == [];
  }

  /** Processing one encoded board sends the engine exactly one request: the
      encoding and the stage digit written, two lines read, nothing else. */
  lemma ConsultFramed(api: string, c: Client, z: string, stage: string, w: World)
    ensures EngineLog(Consult(api, c, z, stage, w).effects) == Exchange(z, stage)
    ensures Framed(EngineLog(Consult(api, c, z, stage, w).effects))
  {
    var exchange := Exchange(z, stage);
    ExchangeFramed(z, stage);
    match Decode(Strip(w.reply))
    case None =>
    case Some(g) =>
      var published := Publish(api, c, g, w);
      NoEngineEffects(published.effects);
      EngineLogAppend(exchange, published.effects);
      assert exchange + [] == exchange;
  }

  /** One callback never leaves the engine mid-request: whatever it sends the engine
      is a whole number of two-line requests, each answered by two reads. */
  lemma StepFramed(api: string, c: Client, now: nat, frame: Frame, w: World)
    ensures Framed(EngineLog(OnMessage(api, c, now, frame, w).effects))
  {
    var r := OnMessage(api, c, now, frame, w);
    if Gated(c, now) {
      assert r.effects == [];
    } else {
      match frame
      case Connected =>
        assert r == Subscribe(api, c, w);
        NoEngineEffects(r.effects);
      case Message(body) =>
        assert r == HandleMessage(api, c, body, w);
        if Encode(body.state).Some? {
          ExchangeFramed(Encode(body.state).value, body.stage);
        }
      case OtherFrame(_) =>
        assert r.effects == [];
    }
  }

  lemma {:induction false} NoEngineEffects(e: seq<Effect>)
    requires forall k :: 0 <= k < |e| ==> !e[k].EngineWrite? && !e[k].EngineRead?
    ensures EngineLog(e) == []
  {
    if |e| > 0 {
      NoEngineEffects(e[1..]);
    }
  }

  /** Where an update request appears after an engine request and what it carries. */
  lemma ConsultUpdate(api: string, c: Client, z: string, stage: string, w: World)
    ensures var r := Consult(api, c, z, stage, w);
            forall k :: 0 <= k < |r.effects| && r.effects[k].UpdateBoard? ==>
              k == 4 == |r.effects| - 1 && c.boardId.Some? && c.boardId.value != 0
              && r.client.lastState == Some(r.effects[k].state)
              && Decode(Strip(w.reply)) == Some(r.effects[k].state)
  {
    var exchange := Exchange(z, stage);
    match Decode(Strip(w.reply))
    case None =>
    case Some(g) =>
      var published := Publish(api, c, g, w);
      var r := Consult(api, c, z, stage, w);
      assert r.effects == exchange + published.effects;
      assert r.client.lastState == Some(g);
  }

  /** The board sent in the update request is the one recorded as the last state,
      and both are the decoding of the engine's stripped reply; an update request is
      only issued for a MESSAGE frame outside the debounce window, for a known
      non-zero board id, and at most once per frame, as the step's last effect. */
  lemma PublishedIsRecorded(api: string, c: Client, now: nat, frame: Frame, w: World)
    ensures var r := OnMessage(api, c, now, frame, w);
            forall k :: 0 <= k < |r.effects| && r.effects[k].UpdateBoard? ==>
              && k == |r.effects| - 1
              && !Gated(c, now) && frame.Message? && c.boardId.Some? && c.boardId.value != 0
              && r.client.lastState == Some(r.effects[k].state)
              && Decode(Strip(w.reply)) == Some(r.effects[k].state)
  {
    var r := OnMessage(api, c, now, frame, w);
    if Gated(c, now) {
      assert r.effects == [];
    } else {
      match frame
      case Connected =>
        assert r == Subscribe(api, c, w);
        LookupNeverUpdates(r.effects);
      case Message(body) =>
        if Encode(body.state).Some? {
          MessageIsConsult(api, c, now, body, w);
          ConsultUpdate(api, c, Encode(body.state).value, body.stage, w);
        } else {
          assert r.effects == [];
        }
      case OtherFrame(_) =>
        assert r.effects == [];
    }
  }

  /** The board lookup followed by at most a subscription issues no update request. */
  lemma LookupNeverUpdates(e: seq<Effect>)
    requires 1 <= |e| <= 2 && e[0].HttpGet?
    requires |e| == 2 ==> e[1].SendSubscribe?
    ensures forall k :: 0 <= k < |e| ==> !e[k].UpdateBoard?
  {
  }

  /** Outside the window, a MESSAGE whose board encodes is handled by consulting
      the engine with that encoding. */
  lemma MessageIsConsult(api: string, c: Client, now: nat, body: Body, w: World)
    requires !Gated(c, now) && Encode(body.state).Some?
    ensures OnMessage(api, c, now, Message(body), w) == Consult(api, c, Encode(body.state).value, body.stage, w)
  {
  }

  /** A CONNECTED frame outside the window with a successful lookup performs exactly
      one lookup followed by exactly one subscription, to that board's topic. */
  lemma ConnectedSubscribesOnce(api: string, c: Client, now: nat, w: World, id: int)
    requires !Gated(c, now) && w.lookup == Some(id)
    ensures var r := OnMessage(api, c, now, Connected, w);
            && r.client == c.(boardId := Some(id))
            && r.fault.None?
            && |r.effects| == 2
            && r.effects[0] == HttpGet(FindBoardUrl(api))
            && r.effects[1] == SendSubscribe(NextStepTopic(id), SubId(w.clock, w.random), "auto")
  {
  }

  /** The engine's newline-terminated answer strips to the bare encoding. */
  lemma StripEncodingLine(z: string)
    requires IsEncoding(z)
    ensures Strip(z + "\n") == z
  {
    assert !IsSpace(z[0]) && !IsSpace(z[|z| - 1]);
    assert AllSpace("\n") && AllSpace("");
    assert "" + z + "\n" == z + "\n";
    StripSurrounded("", z, "\n");
  }

  /** The end-to-end move: when the engine answers with the encoding of a board
      followed by a newline, the engine first receives the request's encoding and
      stage digit, then exactly that board is published once and recorded, and the
      debounce window restarts at the end of processing. */
  lemma EndToEndMove(api: string, c: Client, now: nat, body: Body, w: World, result: Grid)
    requires !Gated(c, now) && IsBoard(body.state) && IsBoard(result)
    requires c.boardId.Some? && c.boardId.value != 0 && w.delivered
    requires w.reply == Encode(result).value + "\n"
    ensures var r := OnMessage(api, c, now, Message(body), w);
            && r.fault.None?
            && r.effects == [EngineWrite(Encode(body.state).value), EngineWrite(StageDigit(body.stage)),
                             EngineRead, EngineRead, UpdateBoard(UpdateBoardUrl(api, c.boardId.value), result)]
            && r.client == Client(w.doneAt, c.boardId, Some(result))
  {
    GridRoundTrip(body.state);
    GridRoundTrip(result);
    StripEncodingLine(Encode(result).value);
    ConsultSuccess(api, c, Encode(body.state).value, body.stage, w, result);
  }

  /** The success path after the engine request, once the reply decoded. */
  lemma ConsultSuccess(api: string, c: Client, z: string, stage: string, w: World, g: Grid)
    requires Decode(Strip(w.reply)) == Some(g)
    requires c.boardId.Some? && c.boardId.value != 0 && w.delivered
    ensures Consult(api, c, z, stage, w) ==
              Step(Client(w.doneAt, c.boardId, Some(g)),
                   [EngineWrite(z), EngineWrite(StageDigit(stage)), EngineRead, EngineRead,
                    UpdateBoard(UpdateBoardUrl(api, c.boardId.value), g)],
                   None)
  {
  }

  /** The debounce window is inclusive: exactly one second after a processed
      message a frame is still dropped, one millisecond later it is handled. */
  lemma DebounceBoundary(api: string, c: Client, frame: Frame, w: World)
    ensures OnMessage(api, c, c.finishedAt + DebounceMs, frame, w) == Step(c, [], None)
    ensures OnMessage(api, c, c.finishedAt + DebounceMs + 1, Connected, w).effects[0] == HttpGet(FindBoardUrl(api))
  {
  }

  /** When the engine has exited, `readline` answers the empty string. It strips to
      nothing, and `z2state` turns nothing into 14 empty rows without complaint:
      that empty grid is recorded and sent in the update request. */
  lemma EngineEofPublishesEmptyRows(api: string, c: Client, z: string, stage: string, w: World)
    requires w.reply == "" && c.boardId.Some? && c.boardId.value != 0
    ensures var r := Consult(api, c, z, stage, w);
            && r.client.lastState == Some(EmptyRows)
            && r.effects == Exchange(z, stage) + [UpdateBoard(UpdateBoardUrl(api, c.boardId.value), EmptyRows)]
  {
    assert Strip("") == "";
    var d := Decode("");
    assert d.Some?;
    assert d.value == EmptyRows by {
      forall i | 0 <= i < 14
        ensures d.value[i] == EmptyRows[i]
      {
        assert RowLength(0, i) == 0;
      }
    }
  }

  /** The grid `z2state` makes of an empty string. */
  const EmptyRows: Grid := seq(14, i => [])

  /** No effect in `e` sends the handshake or starts an engine: both belong to
      opening the socket only. */
  predicate OpensNothing(e: seq<Effect>) {
    forall k :: 0 <= k < |e| ==> !e[k].SendRaw? && !e[k].StartEngine?
  }

  /** Handling a frame never repeats what only opening the socket does: no frame
      sends the handshake again or starts a second engine. */
  lemma StepNeverReopens(api: string, c: Client, now: nat, frame: Frame, w: World)
    ensures OpensNothing(OnMessage(api, c, now, frame, w).effects)
  {
    var r := OnMessage(api, c, now, frame, w);
    if Gated(c, now) {
      assert r.effects == [];
    } else {
      match frame
      case Connected =>
        assert r == Subscribe(api, c, w);
        LookupNeverReopens(r.effects);
      case Message(body) =>
        if Encode(body.state).Some? {
          MessageIsConsult(api, c, now, body, w);
          ConsultNeverReopens(api, c, Encode(body.state).value, body.stage, w);
        } else {
          assert r.effects == [];
        }
      case OtherFrame(_) =>
        assert r.effects == [];
    }
  }

  lemma ConsultNeverReopens(api: string, c: Client, z: string, stage: string, w: World)
    ensures OpensNothing(Consult(api, c, z, stage, w).effects)
  {
    ExchangeNeverReopens(Consult(api, c, z, stage, w).effects, z, stage);
  }

  /** One engine exchange followed by at most a board update opens nothing. */
  lemma ExchangeNeverReopens(e: seq<Effect>, z: string, stage: string)
    requires 4 <= |e| <= 5 && e[..4] == Exchange(z, stage)
    requires |e| == 5 ==> e[4].UpdateBoard?
    ensures OpensNothing(e)
  {
    forall k | 0 <= k < |e|
      ensures !e[k].SendRaw? && !e[k].StartEngine?
    {
      if k < 4 {
        assert e[k] == e[..4][k];
      }
    }
  }

  /** The board lookup followed by at most a subscription opens nothing. */
  lemma LookupNeverReopens(e: seq<Effect>)
    requires 1 <= |e| <= 2 && e[0].HttpGet?
    requires |e| == 2 ==> e[1].SendSubscribe?
    ensures OpensNothing(e)
  {
  }
}
