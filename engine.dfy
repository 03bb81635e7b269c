/** The meaning of one pass of the `while (true)` loop of `AsyncGetEvents.run()`, as a
    function of the engine's state and the server's answers. The imperative model in
    module Client is proved to do exactly this. */
module Engine {
  import opened Wire
  import opened Text
  import opened Dispatch

  /** The state one pass reads and writes: the app's queue id, cursor, pointer and
      max message id, and the thread's `failures` counter and one-shot latch
      `registeredOrGotEventsThisRun`. */
  datatype Snapshot = Snapshot(
    queueId: Option<string>,
    lastEventId: int,
    pointer: int,
    maxMessageId: int,
    failures: int,
    latch: bool)

  /** How a pass ends: the loop goes on, or `run()` returns. */
  datatype Next = Continue | Stop

  /** Part of a pass up to a point where an exception may have been thrown: the state,
      the request's properties, the requests executed, the effects, and the exception. */
  datatype Partial = Partial(
    state: Snapshot,
    properties: map<string, string>,
    requests: seq<Request>,
    effects: seq<Effect>,
    thrown: Option<Failure>)

  /** A whole pass. */
  datatype Outcome = Outcome(state: Snapshot, requests: seq<Request>, effects: seq<Effect>, next: Next)

  /** `processRegister`: a missing `pointer` or `max_message_id` ends it early (the
      JSONException is caught there); otherwise old messages are trimmed, and when the
      roster parses it is stored and the UI is told that registration is done. */
  function ProcessRegisterOp(s: Snapshot, body: Registration): (r: (Snapshot, seq<Effect>))
    ensures r.0.(pointer := s.pointer, maxMessageId := s.maxMessageId) == s
    ensures body.pointer.Some? ==> r.0.pointer == body.pointer.value
    ensures r.0.maxMessageId != s.maxMessageId ==> body.pointer.Some? && body.maxMessageId.Some?
    ensures r.1 != [] <==> body.pointer.Some? && body.maxMessageId.Some?
    ensures r.1 != [] ==> r.1[0] == TrimMessages(KeepMessages)
    ensures ReadyToDisplay(true) in r.1 <==> body.pointer.Some? && body.maxMessageId.Some? && body.roster.Some?
    ensures ReadyToDisplay(false) !in r.1
    ensures body.pointer.None? ==> r.0 == s
    ensures body.pointer.Some? && body.maxMessageId.Some? ==> r.0.maxMessageId == body.maxMessageId.value
    ensures body.pointer.Some? && body.maxMessageId.Some? && body.roster.None? ==> r.1 == [TrimMessages(KeepMessages)]
    ensures body.pointer.Some? && body.maxMessageId.Some? && body.roster.Some? ==>
      r.1 == [TrimMessages(KeepMessages), StoreRoster(body.roster.value), RefreshPeople, RefreshStreams, ReadyToDisplay(true)]
  {
    if body.pointer.None? then (s, [])
    else if body.maxMessageId.None? then (s.(pointer := body.pointer.value), [])
    else
      var s' := s.(pointer := body.pointer.value, maxMessageId := body.maxMessageId.value);
      match body.roster
      case None => (s', [TrimMessages(KeepMessages)])
      case Some(r) => (s', [TrimMessages(KeepMessages), StoreRoster(r), RefreshPeople, RefreshStreams, ReadyToDisplay(true)])
  }

  /** `register()`, starting from request properties `props`. The latch is set as soon
      as the reply parses, before the queue id and the cursor are read. */
  function RegisterOp(s: Snapshot, props: map<string, string>, reply: Reply<Registration>): (p: Partial)
    ensures p.thrown.None? ==> p.state.queueId.Some?
  {
    var params := props["apply_markdown" := "false"];
    var sent := [Request(Post, RegisterPath, params)];
    match reply
    case Fail(f) => Partial(s, params, sent, [], Some(f))
    case Ok(body) =>
      var s1 := s.(latch := true);
      if body.queueId.None? then Partial(s1, params, sent, [], Some(JsonError))
      else
        var s2 := s1.(queueId := body.queueId);
        if body.lastEventId.None? then Partial(s2, params, sent, [], Some(JsonError))
        else
          var s3 := s2.(lastEventId := body.lastEventId.value);
          var (s4, effects) := ProcessRegisterOp(s3, body);
          Partial(s4, params, sent, effects, None)
  }

  /** The properties of the poll: those already set, the queue id and the cursor, and
      `dont_block` while the latch is down. */
  function PollParams(s: Snapshot, props: map<string, string>): map<string, string>
    requires s.queueId.Some?
  {
    var p := props["queue_id" := s.queueId.value]["last_event_id" := Decimal(s.lastEventId)];
    if !s.latch then p["dont_block" := "true"] else p
  }

  /** The first completed poll of a run raises the latch and tells the UI. */
  function Ready(s: Snapshot): (Snapshot, seq<Effect>)
  {
    if !s.latch then (s.(latch := true), [ReadyToDisplay(false)]) else (s, [])
  }

  /** The poll of a pass: lines 83-111 of `run()`. */
  function PollOp(s: Snapshot, props: map<string, string>, reply: Reply<seq<Event>>): (p: Partial)
    requires s.queueId.Some?
    ensures p.requests == [Request(Get, EventsPath, p.properties)]
    ensures p.state.queueId == s.queueId && p.state.maxMessageId == s.maxMessageId
    ensures reply.Fail? ==> p.state == s && p.effects == [] && p.thrown == Some(reply.failure)
    ensures p.thrown.None? ==> reply.Ok? && p.state.latch
    ensures p.thrown.Some? ==> p.state.lastEventId == s.lastEventId && p.state.failures == s.failures
    ensures s.latch ==> p.state.latch
  {
    var params := PollParams(s, props);
    var sent := [Request(Get, EventsPath, params)];
    match reply
    case Fail(f) => Partial(s, params, sent, [], Some(f))
    case Ok(events) =>
      if |events| > 0 then
        var scan := ScanFrom(s.pointer, [], events);
        var s1 := s.(pointer := scan.pointer);
        var dispatched := DispatchEffects(scan);
        var last := events[|events| - 1];
        if last.id.None? then Partial(s1, params, sent, dispatched, Some(JsonError))
        else
          var (s2, ready) := Ready(s1.(lastEventId := last.id.value, failures := 0));
          Partial(s2, params, sent, dispatched + ready, None)
      else
        var (s2, ready) := Ready(s);
        Partial(s2, params, sent, ready, None)
  }

  /** The retry policy applied to an exception. */
  datatype Action =
    | Reregister   // clear the queue id and loop at once
    | Retry        // loop at once, nothing changes
    | BackOff      // count a failure and sleep
    | Terminate    // leave run()

  /** A 400 whose message names a dead queue (lines 113-116). */
  predicate QueueDead(status: int, message: string)
  {
    status == 400 && (Contains(message, "Bad event queue id") || Contains(message, "too old"))
  }

  /** The catch clauses of `run()`. A 400 with a null message throws a
      NullPointerException inside the handler, which the outer catch turns into the
      end of `run()`. */
  function Classify(f: Failure): (a: Action)
    ensures a == Terminate <==> f == Unexpected || f == IOError(true) || f == HttpError(400, None)
    ensures a == Retry <==> f == SocketTimeout
    ensures a == Reregister ==> f.HttpError? && f.status == 400 && f.message.Some?
  {
    match f
    case HttpError(status, message) =>
      if status == 400 && message.None? then Terminate
      else if message.Some? && QueueDead(status, message.value) then Reregister
      else BackOff
    case SocketTimeout => Retry
    case IOError(aborting) => if aborting then Terminate else BackOff
    case JsonError => BackOff
    case Unexpected => Terminate
  }

  /** `backoff()`: one more failure, then a sleep that grows with the count. */
  function BackoffOp(s: Snapshot): (b: (Snapshot, seq<Effect>))
    ensures b.0.failures == s.failures + 1 && b.0.(failures := s.failures) == s
    ensures b.1 == [Sleep(b.0.failures)]
  {
    var s' := s.(failures := s.failures + 1);
    (s', [Sleep(s'.failures)])
  }

  /** The catch clauses applied to the state: only the queue id and `failures` can
      change, and the loop stops exactly on a terminating exception. */
  function Handle(s: Snapshot, f: Failure): (h: (Snapshot, seq<Effect>, Next))
    ensures h.2 == Stop <==> Classify(f) == Terminate
    ensures h.0.(queueId := s.queueId, failures := s.failures) == s
    ensures h.0.queueId == (if Classify(f) == Reregister then None else s.queueId)
    ensures h.0.failures == s.failures + (if Classify(f) == BackOff then 1 else 0)
    ensures h.1 == (if Classify(f) == BackOff then [Sleep(h.0.failures)] else [])
  {
    match Classify(f)
    case Reregister => (s.(queueId := None), [], Continue)
    case Retry => (s, [], Continue)
    case BackOff => var (s', e) := BackoffOp(s); (s', e, Continue)
    case Terminate => (s, [], Stop)
  }

  /** The start of a pass: the request's properties are cleared, and `register()`
      runs when there is no queue id. */
  function RegisterPhase(s: Snapshot, reply: Reply<Registration>): (r: Partial)
    ensures r.thrown.None? ==> r.state.queueId.Some?
  {
    if s.queueId.None? then RegisterOp(s, map[], reply) else Partial(s, map[], [], [], None)
  }

  /** The poll, when nothing was thrown before it. */
  function PollPhase(r: Partial, reply: Reply<seq<Event>>): Partial
    requires r.thrown.None? ==> r.state.queueId.Some?
  {
    if r.thrown.None? then
      var p := PollOp(r.state, r.properties, reply);
      Partial(p.state, p.properties, r.requests + p.requests, r.effects + p.effects, p.thrown)
    else r
  }

  /** The end of a pass: the catch clauses, when something was thrown. */
  function Finish(p: Partial): Outcome
  {
    match p.thrown
    case None => Outcome(p.state, p.requests, p.effects, Continue)
    case Some(f) =>
      var (s', handled, next) := Handle(p.state, f);
      Outcome(s', p.requests, p.effects + handled, next)
  }

  /** One pass of the loop: register when there is no queue id, then poll, and on an
      exception apply the catch clauses. */
  function Step(s: Snapshot, round: Round): (o: Outcome)
    ensures 1 <= |o.requests| <= 2
    ensures IsRegisterRequest(o.requests[0]) <==> s.queueId.None?
    ensures s.latch ==> o.state.latch
    ensures o.next == Stop ==> o.state.queueId.Some? || s.queueId.None?
  {
    Finish(PollPhase(RegisterPhase(s, round.register), round.poll))
  }

  /** Where a run ends after the rounds it consumed. */
  datatype Trace = Trace(state: Snapshot, requests: seq<Request>, effects: seq<Effect>, used: nat, stopped: bool)

  /** The loop of `run()` over the server's answers `rounds`, with `requests` and
      `effects` already recorded and `used` rounds already consumed. It ends when a
      pass stops the loop or when the answers run out. */
  function RunFrom(s: Snapshot, requests: seq<Request>, effects: seq<Effect>, used: nat, rounds: seq<Round>): (t: Trace)
    ensures |requests| <= |t.requests| && |effects| <= |t.effects|
    ensures rounds != [] ==> |requests| < |t.requests|
    ensures t.requests[..|requests|] == requests && t.effects[..|effects|] == effects
    ensures s.latch ==> t.state.latch
    decreases |rounds|
  {
    if rounds == [] then Trace(s, requests, effects, used, false)
    else
      var o := Step(s, rounds[0]);
      var requests', effects' := requests + o.requests, effects + o.effects;
      assert requests'[..|requests|] == requests && effects'[..|effects|] == effects;
      if o.next == Stop then Trace(o.state, requests', effects', used + 1, true)
      else
        var t := RunFrom(o.state, requests', effects', used + 1, rounds[1..]);
        assert t.requests[..|requests|] == t.requests[..|requests'|][..|requests|];
        assert t.effects[..|effects|] == t.effects[..|effects'|][..|effects|];
        t
  }
}
