/** Runs of the client over a sequence of incoming frames, as the WebSocket
    library delivers them one at a time, and the properties that hold across
    a whole session. */
module Trace {
  import opened Session

  /** One delivered frame with the clock reading at arrival and the world it meets. */
  datatype Event = Event(now: nat, frame: Frame, world: World)

  /** The client after a run and every effect issued, in order. */
  datatype Replay = Replay(client: Client, effects: seq<Effect>)

  /** Feed the events to `on_message` one after another; no frame of the run
      repeats the handshake or starts another engine. */
  function Run(api: string, c: Client, events: seq<Event>): (r: Replay)
    ensures OpensNothing(r.effects)
    decreases |events|
  {
    if |events| == 0 then Replay(c, [])
    else
      var e := events[0];
      var step := OnMessage(api, c, e.now, e.frame, e.world);
      var rest := Run(api, step.client, events[1..]);
      StepNeverReopens(api, c, e.now, e.frame, e.world);
      OpensNothingAppend(step.effects, rest.effects);
      Replay(rest.client, step.effects + rest.effects)
  }

  lemma OpensNothingAppend(a: seq<Effect>, b: seq<Effect>)
    requires OpensNothing(a) && OpensNothing(b)
    ensures OpensNothing(a + b)
  {
    forall k | 0 <= k < |a + b|
      ensures !(a + b)[k].SendRaw? && !(a + b)[k].StartEngine?
    {
      if k >= |a| {
        assert (a + b)[k] == b[k - |a|];
      }
    }
  }

  /** A whole session: the socket opens, then the events arrive. The handshake is
      the first effect and the engine start the second, and neither ever recurs. */
  function RunSession(api: string, events: seq<Event>): (r: Replay)
    ensures |r.effects| >= 4 && r.effects[0] == SendRaw(ConnectFrame)
    ensures forall k :: 0 <= k < |r.effects| ==>
              (r.effects[k].SendRaw? <==> k == 0) && (r.effects[k].StartEngine? <==> k == 1)
  {
    var start := Open();
    var rest := Run(api, start.client, events);
    OpenedOnce(start.effects, rest.effects);
    Replay(rest.client, start.effects + rest.effects)
  }

  lemma OpenedOnce(opening: seq<Effect>, rest: seq<Effect>)
    requires opening == Open().effects && OpensNothing(rest)
    ensures var all := opening + rest;
            forall k :: 0 <= k < |all| ==>
              (all[k].SendRaw? <==> k == 0) && (all[k].StartEngine? <==> k == 1)
  {
    var all := opening + rest;
    forall k | 0 <= k < |all|
      ensures (all[k].SendRaw? <==> k == 0) && (all[k].StartEngine? <==> k == 1)
    {
      if k >= 4 {
        assert all[k] == rest[k - 4];
      }
    }
  }

  /** Across any run, the engine only ever sees whole requests: two lines written,
      then two lines read, before the next request begins. */
  lemma {:induction false} RunFramed(api: string, c: Client, events: seq<Event>)
    ensures Framed(EngineLog(Run(api, c, events).effects))
    decreases |events|
  {
    if |events| > 0 {
      var e := events[0];
      var step := OnMessage(api, c, e.now, e.frame, e.world);
      var rest := Run(api, step.client, events[1..]);
      StepFramed(api, c, e.now, e.frame, e.world);
      RunFramed(api, step.client, events[1..]);
      EngineLogAppend(step.effects, rest.effects);
      FramedAppend(EngineLog(step.effects), EngineLog(rest.effects));
    }
  }

  /** Over a whole session the engine sees its start-up line and one read, and
      after that only framed requests. */
  lemma SessionEngineProtocol(api: string, events: seq<Event>)
    ensures var log := EngineLog(RunSession(api, events).effects);
            |log| >= 2 && log[..2] == [EngineWrite(NoPreviousBoard), EngineRead] && Framed(log[2..])
  {
    var start := Open();
    var rest := Run(api, start.client, events);
    EngineLogAppend(start.effects, rest.effects);
    RunFramed(api, start.client, events);
    var log := EngineLog(RunSession(api, events).effects);
    assert log == [EngineWrite(NoPreviousBoard), EngineRead] + EngineLog(rest.effects);
    assert log[2..] == EngineLog(rest.effects);
  }

  /** The clock never runs backwards within one event. */
  predicate ClockSane(events: seq<Event>) {
    forall i :: 0 <= i < |events| ==> events[i].now <= events[i].world.doneAt
  }

  /** With a sane clock the end of the debounce window never moves backwards. */
  lemma {:induction false} FinishedAtMonotone(api: string, c: Client, events: seq<Event>)
    requires ClockSane(events)
    ensures Run(api, c, events).client.finishedAt >= c.finishedAt
    decreases |events|
  {
    if |events| > 0 {
      var e := events[0];
      var step := OnMessage(api, c, e.now, e.frame, e.world);
      assert step.client.finishedAt >= c.finishedAt;
      assert ClockSane(events[1..]) by {
        forall i | 0 <= i < |events[1..]|
          ensures events[1..][i].now <= events[1..][i].world.doneAt
        {
          assert events[1..][i] == events[i + 1];
        }
      }
      FinishedAtMonotone(api, step.client, events[1..]);
    }
  }

  /** Without a CONNECTED frame the board id never changes. */
  lemma {:induction false} BoardIdNeedsConnected(api: string, c: Client, events: seq<Event>)
    requires forall i :: 0 <= i < |events| ==> !events[i].frame.Connected?
    ensures Run(api, c, events).client.boardId == c.boardId
    decreases |events|
  {
    if |events| > 0 {
      var e := events[0];
      var step := OnMessage(api, c, e.now, e.frame, e.world);
      assert forall i :: 0 <= i < |events[1..]| ==> events[1..][i] == events[i + 1];
      BoardIdNeedsConnected(api, step.client, events[1..]);
    }
  }
}
