/** What one pass and a whole run of the event loop guarantee: the retry rules of the
    catch clauses, the cursor and failure counter, and the one-shot latch. */
module LoopProperties {
  import opened Wire
  import opened Text
  import opened Dispatch
  import opened Engine

  // ---------------------------------------------------------------- a successful poll

  /** A non-empty batch moves the cursor to the id of its last event and clears the
      failure counter; the queue id stays, and the latch is up afterwards. */
  lemma NonEmptyBatchAdvancesCursor(s: Snapshot, round: Round, events: seq<Event>)
    requires RegisterPhase(s, round.register).thrown.None?
    requires round.poll == Ok(events) && |events| > 0 && events[|events| - 1].id.Some?
    ensures var r := RegisterPhase(s, round.register); var o := Step(s, round);
      && o.state.lastEventId == events[|events| - 1].id.value
      && o.state.failures == 0
      && o.state.queueId == r.state.queueId
      && o.state.latch
      && o.state.pointer == ScanFrom(r.state.pointer, [], events).pointer
      && o.next == Continue
  {
  }

  /** An empty batch changes nothing but the latch: the cursor, the failure counter and
      the queue id stay, and the only effect is the first-poll signal of a run. */
  lemma EmptyBatchKeepsState(s: Snapshot, round: Round)
    requires s.queueId.Some? && round.poll == Ok([])
    ensures var o := Step(s, round);
      && o.state == s.(latch := true)
      && o.effects == (if s.latch then [] else [ReadyToDisplay(false)])
      && |o.requests| == 1 && IsPollRequest(o.requests[0])
      && o.next == Continue
  {
  }

  /** The properties of the poll: the stored queue id and cursor, or those the
      registration of the same pass just stored; `dont_block` exactly while the latch is
      down; and the cursor is sent so that it reads back as the stored value. */
  lemma PollCarriesQueueAndCursor(s: Snapshot, round: Round)
    ensures var o := Step(s, round);
      forall i :: 0 <= i < |o.requests| && IsPollRequest(o.requests[i]) ==>
        var params := o.requests[i].params;
        && "queue_id" in params && "last_event_id" in params
        && (s.queueId.Some? ==>
              && params["queue_id"] == s.queueId.value
              && ParseDecimal(params["last_event_id"]) == Some(s.lastEventId)
              && ("dont_block" in params <==> !s.latch))
        && (s.queueId.None? ==>
              && round.register.Ok?
              && round.register.body.queueId == Some(params["queue_id"])
              && round.register.body.lastEventId.Some?
              && ParseDecimal(params["last_event_id"]) == Some(round.register.body.lastEventId.value)
              && params["apply_markdown"] == "false"
              && "dont_block" !in params)
  {
    var o := Step(s, round);
    var r := RegisterPhase(s, round.register);
    if r.thrown.None? {
      DecimalRoundTrip(r.state.lastEventId);
    }
  }

  /** A pass issues at most a registration followed by a poll; it registers exactly
      when there is no queue id, and then before anything else. */
  lemma RegisterOnlyWithoutQueue(s: Snapshot, round: Round)
    ensures var o := Step(s, round);
      && 1 <= |o.requests| <= 2
      && (IsRegisterRequest(o.requests[0]) <==> s.queueId.None?)
      && (|o.requests| == 2 ==> IsPollRequest(o.requests[1]))
      && (s.queueId.Some? ==> |o.requests| == 1 && IsPollRequest(o.requests[0]))
  {
  }

  /** `register()` raises the latch, so the first poll after a
      registration blocks (no `dont_block`), still carries `apply_markdown`, and the
      first-poll signal is not sent. */
  lemma RegisterThenPollBlocks(s: Snapshot, round: Round, q: string, cursor: int, p: int, max: int, roster: Roster)
    requires s.queueId.None?
    requires round.register == Ok(Registration(Some(q), Some(cursor), Some(p), Some(max), Some(roster)))
    requires round.poll == Ok([])
    ensures var o := Step(s, round);
      && o.requests == [
           Request(Post, RegisterPath, map["apply_markdown" := "false"]),
           Request(Get, EventsPath, map["apply_markdown" := "false", "queue_id" := q, "last_event_id" := Decimal(cursor)])]
      && o.effects == [TrimMessages(KeepMessages), StoreRoster(roster), RefreshPeople, RefreshStreams, ReadyToDisplay(true)]
      && o.state == s.(queueId := Some(q), lastEventId := cursor, pointer := p, maxMessageId := max, latch := true)
  {
  }

  // ---------------------------------------------------------------- the catch clauses

  /** A 400 naming a dead queue clears the queue id and nothing else: no failure is
      counted and there is no sleep. */
  lemma QueueDeadClearsQueue(s: Snapshot, round: Round, message: string)
    requires s.queueId.Some?
    requires round.poll == Fail(HttpError(400, Some(message)))
    requires Contains(message, "Bad event queue id") || Contains(message, "too old")
    ensures var o := Step(s, round);
      && o.state == s.(queueId := None)
      && o.effects == []
      && o.next == Continue
  {
  }

  /** With no queue id, the next pass starts with a registration, whatever the server says. */
  lemma NoQueueRegistersFirst(s: Snapshot, round: Round)
    requires s.queueId.None?
    ensures var o := Step(s, round);
      |o.requests| > 0 && o.requests[0] == Request(Post, RegisterPath, map["apply_markdown" := "false"])
  {
  }

  /** The recovery as a whole: after a dead-queue 400 the very next request is a
      registration, and nothing (in particular no sleep) happens before it. */
  lemma QueueDeadThenRegister(s: Snapshot, round: Round, next: Round, message: string)
    requires s.queueId.Some?
    requires round.poll == Fail(HttpError(400, Some(message)))
    requires Contains(message, "Bad event queue id") || Contains(message, "too old")
    ensures var t := RunFrom(s, [], [], 0, [round, next]);
      && |t.requests| >= 2 && IsPollRequest(t.requests[0])
      && t.requests[1] == Request(Post, RegisterPath, map["apply_markdown" := "false"])
      && t.effects == Step(s.(queueId := None), next).effects
  {
    QueueDeadClearsQueue(s, round, message);
    RegisterOnlyWithoutQueue(s, round);
    var o := Step(s, round);
    NoQueueRegistersFirst(o.state, next);
    RunOfTwo(s, round, next);
  }

  /** Two passes of which the first goes on. */
  lemma RunOfTwo(s: Snapshot, a: Round, b: Round)
    requires Step(s, a).next == Continue
    ensures var o := Step(s, a); var o2 := Step(o.state, b); var t := RunFrom(s, [], [], 0, [a, b]);
      && t.requests == o.requests + o2.requests
      && t.effects == o.effects + o2.effects
  {
    var o := Step(s, a);
    assert [a, b][1..] == [b];
    assert [b][1..] == [];
    assert [] + o.requests == o.requests && [] + o.effects == o.effects;
    assert RunFrom(s, [], [], 0, [a, b]) == RunFrom(o.state, o.requests, o.effects, 1, [b]);
    var o2 := Step(o.state, b);
    if o2.next == Stop {
      assert RunFrom(o.state, o.requests, o.effects, 1, [b])
        == Trace(o2.state, o.requests + o2.requests, o.effects + o2.effects, 2, true);
    } else {
      assert RunFrom(o.state, o.requests, o.effects, 1, [b])
        == RunFrom(o2.state, o.requests + o2.requests, o.effects + o2.effects, 2, []);
    }
  }

  /** Any other HTTP error, a non-aborting IOException and a JSONException each count
      one failure, sleep once, and change nothing else. */
  lemma RetryableFailureCountsOne(s: Snapshot, round: Round, f: Failure)
    requires s.queueId.Some? && round.poll == Fail(f)
    requires || f == JsonError
             || f == IOError(false)
             || (f.HttpError? && f.status != 400)
             || (f.HttpError? && f.message.Some?
                 && !Contains(f.message.value, "Bad event queue id") && !Contains(f.message.value, "too old"))
    ensures var o := Step(s, round);
      && o.state == s.(failures := s.failures + 1)
      && o.effects == [Sleep(s.failures + 1)]
      && o.next == Continue
  {
  }

  /** A socket timeout changes nothing and the loop goes on. */
  lemma TimeoutChangesNothing(s: Snapshot, round: Round)
    requires s.queueId.Some? && round.poll == Fail(SocketTimeout)
    ensures var o := Step(s, round);
      o.state == s && o.effects == [] && o.next == Continue
  {
  }

  /** An IOException while aborting, any exception outside the handled kinds, and a 400
      without a message end the loop without changing anything. */
  lemma FatalFailureStops(s: Snapshot, round: Round, f: Failure)
    requires s.queueId.Some? && round.poll == Fail(f)
    requires f == IOError(true) || f == Unexpected || f == HttpError(400, None)
    ensures var o := Step(s, round);
      o.state == s && o.effects == [] && o.next == Stop
  {
  }

  /** A failed registration is classified like a failed poll, and no poll follows it. */
  lemma RegisterFailureSkipsPoll(s: Snapshot, round: Round, f: Failure)
    requires s.queueId.None? && round.register == Fail(f)
    ensures var o := Step(s, round); var (s', e, n) := Handle(s, f);
      && o.requests == [Request(Post, RegisterPath, map["apply_markdown" := "false"])]
      && o.state == s' && o.effects == e && o.next == n
  {
  }

  /** Once a pass stops the loop, the run makes no further request and has no further effect. */
  lemma {:induction false} StopEndsRun(s: Snapshot, requests: seq<Request>, effects: seq<Effect>, used: nat, rounds: seq<Round>)
    requires |rounds| > 0 && Step(s, rounds[0]).next == Stop
    ensures var t := RunFrom(s, requests, effects, used, rounds); var o := Step(s, rounds[0]);
      && t.stopped && t.used == used + 1
      && t.requests == requests + o.requests && t.effects == effects + o.effects
  {
  }

  /** A run consumes one round per pass: it uses them all unless a pass stops it. */
  lemma {:induction false} RunConsumesRounds(s: Snapshot, requests: seq<Request>, effects: seq<Effect>, used: nat, rounds: seq<Round>)
    ensures var t := RunFrom(s, requests, effects, used, rounds);
      && used <= t.used <= used + |rounds|
      && (!t.stopped ==> t.used == used + |rounds|)
      && (t.stopped ==> t.used > used)
    decreases |rounds|
  {
    if rounds != [] {
      var o := Step(s, rounds[0]);
      if o.next != Stop {
        RunConsumesRounds(o.state, requests + o.requests, effects + o.effects, used + 1, rounds[1..]);
      }
    }
  }

  // ---------------------------------------------------------------- the failure counter

  /** The failure counter moves only by one backoff, or back to zero on a non-empty batch. */
  lemma FailuresChangeOnlyByBackoffOrBatch(s: Snapshot, round: Round)
    ensures var o := Step(s, round);
      || o.state.failures == s.failures
      || (o.state.failures == s.failures + 1 && |o.effects| > 0 && o.effects[|o.effects| - 1] == Sleep(s.failures + 1))
      || (o.state.failures == 0 && round.poll.Ok? && |round.poll.body| > 0)
  {
  }

  // ---------------------------------------------------------------- the one-shot latch

  /** The number of first-poll signals `onReadyToDisplay(false)` among `effects`. */
  function CountReady(effects: seq<Effect>): nat
  {
    if effects == [] then 0
    else (if effects[0] == ReadyToDisplay(false) then 1 else 0) + CountReady(effects[1..])
  }

  lemma {:induction false} CountReadyAppend(a: seq<Effect>, b: seq<Effect>)
    ensures CountReady(a + b) == CountReady(a) + CountReady(b)
    decreases |a|
  {
    if a == [] {
      assert a + b == b;
    } else {
      assert (a + b)[0] == a[0];
      assert (a + b)[1..] == a[1..] + b;
      CountReadyAppend(a[1..], b);
    }
  }

  lemma {:induction false} CountReadyNone(e: seq<Effect>)
    requires forall i :: 0 <= i < |e| ==> e[i] != ReadyToDisplay(false)
    ensures CountReady(e) == 0
    decreases |e|
  {
    if e != [] {
      CountReadyNone(e[1..]);
    }
  }

  lemma RegisterSignalsNoFirstPoll(s: Snapshot, props: map<string, string>, reply: Reply<Registration>)
    ensures CountReady(RegisterOp(s, props, reply).effects) == 0
  {
    CountReadyNone(RegisterOp(s, props, reply).effects);
  }

  lemma PollSignalsOnlyWhenLatchDown(s: Snapshot, props: map<string, string>, reply: Reply<seq<Event>>)
    requires s.queueId.Some?
    ensures var p := PollOp(s, props, reply);
      && (s.latch ==> p.state.latch)
      && CountReady(p.effects) == (if !s.latch && p.thrown.None? then 1 else 0)
      && (p.thrown.None? ==> p.state.latch)
      && (!s.latch && p.state.latch ==> reply.Ok?)
  {
    var p := PollOp(s, props, reply);
    match reply
    case Fail(f) =>
    case Ok(events) =>
      var d := if |events| > 0 then DispatchEffects(ScanFrom(s.pointer, [], events)) else [];
      CountReadyNone(d);
      if p.thrown.None? {
        var ready := if !s.latch then [ReadyToDisplay(false)] else [];
        assert p.effects == d + ready;
        CountReadyAppend(d, ready);
        assert CountReady(ready) == if !s.latch then 1 else 0 by {
          if !s.latch { assert ready[1..] == []; }
        }
      } else {
        assert p.effects == d;
      }
  }

  lemma HandleSignalsNothing(s: Snapshot, f: Failure)
    ensures CountReady(Handle(s, f).1) == 0 && Handle(s, f).0.latch == s.latch
  {
    CountReadyNone(Handle(s, f).1);
  }

  /** No pass lowers the latch; it is raised only by a parsed registration or a
      completed poll; and a pass signals "ready" at most once, only when it raises it. */
  lemma LatchOneShotInPass(s: Snapshot, round: Round)
    ensures var o := Step(s, round);
      && (s.latch ==> o.state.latch)
      && (!s.latch && o.state.latch ==> (s.queueId.None? && round.register.Ok?) || round.poll.Ok?)
      && CountReady(o.effects) <= (if s.latch then 0 else 1)
      && (CountReady(o.effects) == 1 ==> o.state.latch)
  {
    var o := Step(s, round);
    var r := RegisterPhase(s, round.register);
    var p := PollPhase(r, round.poll);
    if s.queueId.None? {
      RegisterSignalsNoFirstPoll(s, map[], round.register);
    } else {
      assert r.effects == [];
    }
    assert CountReady(r.effects) == 0;
    assert r.state.latch == s.latch || (s.queueId.None? && round.register.Ok? && r.state.latch);
    if r.thrown.None? {
      var q := PollOp(r.state, r.properties, round.poll);
      PollSignalsOnlyWhenLatchDown(r.state, r.properties, round.poll);
      CountReadyAppend(r.effects, q.effects);
      assert p.effects == r.effects + q.effects;
    }
    match p.thrown
    case None =>
    case Some(f) =>
      HandleSignalsNothing(p.state, f);
      CountReadyAppend(p.effects, Handle(p.state, f).1);
  }

  /** Over a whole run the latch never goes down, and `onReadyToDisplay(false)` fires at
      most once, never once the latch is up. */
  lemma {:induction false} ReadyAtMostOncePerRun(s: Snapshot, requests: seq<Request>, effects: seq<Effect>, used: nat, rounds: seq<Round>)
    ensures var t := RunFrom(s, requests, effects, used, rounds);
      && (s.latch ==> t.state.latch)
      && |effects| <= |t.effects| && t.effects[..|effects|] == effects
      && CountReady(t.effects) <= CountReady(effects) + (if s.latch then 0 else 1)
    decreases |rounds|
  {
    if rounds != [] {
      var o := Step(s, rounds[0]);
      LatchOneShotInPass(s, rounds[0]);
      CountReadyAppend(effects, o.effects);
      if o.next != Stop {
        ReadyAtMostOncePerRun(o.state, requests + o.requests, effects + o.effects, used + 1, rounds[1..]);
      }
    }
  }

  /** A run started by `start()` signals "ready" at most once. */
  lemma StartSignalsReadyAtMostOnce(s: Snapshot, requests: seq<Request>, rounds: seq<Round>)
    ensures CountReady(RunFrom(s.(latch := false), requests, [], 0, rounds).effects) <= 1
  {
    ReadyAtMostOncePerRun(s.(latch := false), requests, [], 0, rounds);
  }

  /** A registration reply with every field present. */
  predicate Complete(body: Registration)
  {
    body.queueId.Some? && body.lastEventId.Some? && body.pointer.Some? && body.maxMessageId.Some? && body.roster.Some?
  }

  /** The effects of a complete registration: trim, store the roster, refresh both
      adapters, and `onReadyToDisplay(true)`. */
  function RegistrationEffects(body: Registration): seq<Effect>
    requires Complete(body)
  {
    [TrimMessages(KeepMessages), StoreRoster(body.roster.value), RefreshPeople, RefreshStreams, ReadyToDisplay(true)]
  }

  /** `onReadyToDisplay(true)` is not one-shot: every complete registration fires it,
      so a run that re-registers after a dead queue fires it a second time. */
  lemma ReregistrationSignalsReadyAgain(s: Snapshot, a: Round, b: Round, message: string)
    requires s.queueId.None?
    requires a.register.Ok? && Complete(a.register.body)
    requires a.poll == Fail(HttpError(400, Some(message))) && QueueDead(400, message)
    requires b.register.Ok? && Complete(b.register.body) && b.poll == Ok([])
    ensures var t := RunFrom(s, [], [], 0, [a, b]);
      && t.effects == RegistrationEffects(a.register.body) + RegistrationEffects(b.register.body)
      && t.state.queueId == b.register.body.queueId
      && !t.stopped
  {
    var o := Step(s, a);
    assert o.state.queueId.None? && o.next == Continue;
    assert o.effects == RegistrationEffects(a.register.body);
    assert Step(o.state, b).effects == RegistrationEffects(b.register.body);
    var o2 := Step(o.state, b);
    assert o2.next == Continue && o2.state.queueId == b.register.body.queueId;
    assert [a, b][1..] == [b] && [b][1..] == [];
    assert [] + o.requests == o.requests && [] + o.effects == o.effects;
    assert RunFrom(s, [], [], 0, [a, b]) == RunFrom(o.state, o.requests, o.effects, 1, [b]);
    assert RunFrom(o.state, o.requests, o.effects, 1, [b])
      == RunFrom(o2.state, o.requests + o2.requests, o.effects + o2.effects, 2, []);
  }

  /** A registration whose roster does not parse raises the latch but fires neither
      signal: the pass records only the trim, and since the latch is now up no later
      poll of the run fires `onReadyToDisplay(false)` either. */
  lemma RosterlessRegistrationNeverSignals(s: Snapshot, round: Round, q: string, cursor: int, p: int, max: int, rounds: seq<Round>)
    requires s.queueId.None?
    requires round.register == Ok(Registration(Some(q), Some(cursor), Some(p), Some(max), None))
    requires round.poll == Ok([])
    ensures var o := Step(s, round);
      && o.effects == [TrimMessages(KeepMessages)]
      && o.state.latch && o.next == Continue
      && CountReady(RunFrom(o.state, [], [], 0, rounds).effects) == 0
  {
    var o := Step(s, round);
    ReadyAtMostOncePerRun(o.state, [], [], 0, rounds);
  }

  // ---------------------------------------------------------------- a worked batch

  /** A pointer event followed by a message: the pointer moves first, the message is
      stored and announced once, and the cursor moves to the message event's id. */
  lemma PointerThenMessage(s: Snapshot, m: Message)
    requires s.queueId.Some? && s.latch
    ensures var batch := [Event(Some(43), PointerPayload(11)), Event(Some(44), MessagePayload(m))];
      var o := Step(s, Round(Fail(Unexpected), Ok(batch)));
      && o.state == s.(pointer := 11, lastEventId := 44, failures := 0)
      && o.effects == [StoreMessages([m]), UpdateRange(m.id), NewMessages([m])]
  {
    var batch := [Event(Some(43), PointerPayload(11)), Event(Some(44), MessagePayload(m))];
    assert batch[1..] == [batch[1]];
    assert batch[1..][1..] == [];
    assert ScanFrom(s.pointer, [], batch) == ScanFrom(11, [], batch[1..]);
    assert ScanFrom(11, [], batch[1..]) == ScanFrom(11, [m], []);
  }

  /** A batch with a malformed event is skipped for good: none of its messages is
      stored or announced, yet the cursor moves past the whole batch, so the next
      poll does not ask for them again. */
  lemma MalformedEventSkipsBatch(s: Snapshot, round: Round, events: seq<Event>, k: nat)
    requires s.queueId.Some?
    requires round.poll == Ok(events) && k < |events| && events[k].payload.Malformed?
    requires events[|events| - 1].id.Some?
    ensures var o := Step(s, round);
      && o.state.lastEventId == events[|events| - 1].id.value
      && o.state.failures == 0
      && o.effects == (if s.latch then [] else [ReadyToDisplay(false)])
      && o.next == Continue
  {
    ProcessEventsMeaning(s.pointer, events);
  }

  /** The two-event instance: a message followed by a malformed event. */
  lemma MessageThenMalformed(s: Snapshot, m: Message)
    requires s.queueId.Some? && s.latch
    ensures var o := Step(s, Round(Fail(Unexpected), Ok([Event(Some(1), MessagePayload(m)), Event(Some(2), Malformed)])));
      o.state.lastEventId == 2 && o.effects == [] && o.next == Continue
  {
    MalformedEventSkipsBatch(s, Round(Fail(Unexpected), Ok([Event(Some(1), MessagePayload(m)), Event(Some(2), Malformed)])),
      [Event(Some(1), MessagePayload(m)), Event(Some(2), Malformed)], 1);
  }

  // ---------------------------------------------------------------- partial failures

  /** A registration reply without `queue_id` still raises the latch; the pass then
      counts one failure, sleeps, and polls nothing. */
  lemma MissingQueueIdRaisesLatchAndBacksOff(s: Snapshot, round: Round, body: Registration)
    requires s.queueId.None? && round.register == Ok(body) && body.queueId.None?
    ensures var o := Step(s, round);
      && o.state == s.(latch := true, failures := s.failures + 1)
      && o.effects == [Sleep(s.failures + 1)]
      && |o.requests| == 1 && o.next == Continue
  {
  }

  /** A registration reply with `queue_id` but no `last_event_id` stores the queue id
      and backs off; the next pass polls that queue with the old cursor. */
  lemma QueueStoredWithoutCursor(s: Snapshot, round: Round, next: Round, q: string, body: Registration)
    requires s.queueId.None? && round.register == Ok(body)
    requires body.queueId == Some(q) && body.lastEventId.None?
    ensures var o := Step(s, round);
      && o.state == s.(queueId := Some(q), latch := true, failures := s.failures + 1)
      && o.effects == [Sleep(s.failures + 1)]
      && o.next == Continue
      && var o2 := Step(o.state, next);
         o2.requests[0].params == map["queue_id" := q, "last_event_id" := Decimal(s.lastEventId)]
  {
  }

  /** A batch whose last event has no readable id is dispatched, but the cursor stays
      and one failure is counted, so the next poll asks for the same events again. */
  lemma UnreadableLastIdKeepsCursor(s: Snapshot, round: Round, events: seq<Event>)
    requires s.queueId.Some?
    requires round.poll == Ok(events) && |events| > 0 && events[|events| - 1].id.None?
    ensures var o := Step(s, round); var scan := ScanFrom(s.pointer, [], events);
      && o.state == s.(pointer := scan.pointer, failures := s.failures + 1)
      && o.effects == DispatchEffects(scan) + [Sleep(s.failures + 1)]
      && o.next == Continue
  {
    var r := RegisterPhase(s, round.register);
    assert PollOp(r.state, r.properties, round.poll).thrown == Some(JsonError);
  }
}
