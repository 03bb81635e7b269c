/** The thread `AsyncGetEvents` and the two objects it updates in place: the app's
    session fields and the reusable HTTP request. Every method is proved to do what
    module Engine says one step of the loop does. */
module Client {
  import opened Wire
  import opened Text
  import opened Dispatch
  import opened Engine

  /** The fields of `ZulipApp` the engine reads and writes. */
  class App {
    var eventQueueId: Option<string>
    var lastEventId: int
    var pointer: int
    var maxMessageId: int

    constructor (queueId: Option<string>, lastEventId: int, pointer: int, maxMessageId: int)
      ensures this.eventQueueId == queueId && this.lastEventId == lastEventId
      ensures this.pointer == pointer && this.maxMessageId == maxMessageId
    {
      this.eventQueueId := queueId;
      this.lastEventId := lastEventId;
      this.pointer := pointer;
      this.maxMessageId := maxMessageId;
    }
  }

  /** `HTTPRequest`: the properties the next call sends, and a record of the calls made.
      The server's answer is a parameter of `Execute`. */
  class HttpRequest {
    var properties: map<string, string>
    ghost var sent: seq<Request>

    constructor ()
      ensures properties == map[] && sent == []
    {
      properties := map[];
      sent := [];
    }

    method ClearProperties()
      modifies this
      ensures properties == map[] && sent == old(sent)
    {
      properties := map[];
    }

    method SetProperty(key: string, value: string)
      modifies this
      ensures properties == old(properties)[key := value] && sent == old(sent)
    {
      properties := properties[key := value];
    }

    /** Sends the current properties; `reply` is what the server and the parser make of it. */
    method Execute<T>(verb: string, path: string, reply: Reply<T>) returns (r: Reply<T>)
      modifies this
      ensures r == reply && properties == old(properties)
      ensures sent == old(sent) + [Request(verb, path, properties)]
    {
      sent := sent + [Request(verb, path, properties)];
      r := reply;
    }
  }

  class AsyncGetEvents {
    const app: App
    const request: HttpRequest
    var failures: int
    var registeredOrGotEventsThisRun: bool
    /** The database and UI calls made so far. */
    ghost var effects: seq<Effect>

    ghost function Snap(): Snapshot
      reads this, app
    {
      Snapshot(app.eventQueueId, app.lastEventId, app.pointer, app.maxMessageId,
               failures, registeredOrGotEventsThisRun)
    }

    constructor (app: App)
      ensures this.app == app && fresh(request)
      ensures request.properties == map[] && request.sent == []
      ensures failures == 0 && !registeredOrGotEventsThisRun && effects == []
    {
      this.app := app;
      request := new HttpRequest();
      failures := 0;
      registeredOrGotEventsThisRun := false;
      effects := [];
    }

    /** `start()`: lowers the latch and runs the loop over the server's answers. */
    method Start(rounds: seq<Round>) returns (used: nat, stopped: bool)
      modifies this, app, request
      ensures var t := RunFrom(old(Snap()).(latch := false), old(request.sent), old(effects), 0, rounds);
        && Snap() == t.state && request.sent == t.requests && effects == t.effects
        && used == t.used && stopped == t.stopped
    {
      registeredOrGotEventsThisRun := false;
      used, stopped := Run(rounds);
    }

    /** `backoff()`: counts one more failure and sleeps. */
    method Backoff()
      modifies this
      ensures Snap() == BackoffOp(old(Snap())).0
      ensures effects == old(effects) + BackoffOp(old(Snap())).1
    {
      failures := failures + 1;
      effects := effects + [Sleep(failures)];
    }

    /** `register()`: returns the exception it throws, if any. */
    method Register(reply: Reply<Registration>) returns (thrown: Option<Failure>)
      modifies this, app, request
      ensures var p := RegisterOp(old(Snap()), old(request.properties), reply);
        && Snap() == p.state && request.properties == p.properties
        && request.sent == old(request.sent) + p.requests
        && effects == old(effects) + p.effects && thrown == p.thrown
    {
      request.SetProperty("apply_markdown", "false");
      var response := request.Execute(Post, RegisterPath, reply);
      match response
      case Fail(f) =>
        thrown := Some(f);
      case Ok(body) =>
        registeredOrGotEventsThisRun := true;
        if body.queueId.None? {
          thrown := Some(JsonError);
          return;
        }
        app.eventQueueId := body.queueId;
        if body.lastEventId.None? {
          thrown := Some(JsonError);
          return;
        }
        app.lastEventId := body.lastEventId.value;
        ProcessRegister(body);
        thrown := None;
    }

    /** `processRegister`: its own JSON and database failures are caught inside it. */
    method ProcessRegister(body: Registration)
      modifies this, app
      ensures Snap() == ProcessRegisterOp(old(Snap()), body).0
      ensures effects == old(effects) + ProcessRegisterOp(old(Snap()), body).1
    {
      if body.pointer.None? {
        return;
      }
      app.pointer := body.pointer.value;
      if body.maxMessageId.None? {
        return;
      }
      app.maxMessageId := body.maxMessageId.value;
      effects := effects + [TrimMessages(KeepMessages)];
      match body.roster
      case None =>
      case Some(r) =>
        effects := effects + [StoreRoster(r), RefreshPeople, RefreshStreams, ReadyToDisplay(true)];
    }

    /** Lines 83-111 of `run()`: the poll and what a successful reply does. */
    method Poll(reply: Reply<seq<Event>>) returns (thrown: Option<Failure>)
      requires app.eventQueueId.Some?
      modifies this, app, request
      ensures var p := PollOp(old(Snap()), old(request.properties), reply);
        && Snap() == p.state && request.properties == p.properties
        && request.sent == old(request.sent) + p.requests
        && effects == old(effects) + p.effects && thrown == p.thrown
    {
      request.SetProperty("queue_id", app.eventQueueId.value);
      request.SetProperty("last_event_id", Decimal(app.lastEventId));
      if !registeredOrGotEventsThisRun {
        request.SetProperty("dont_block", "true");
      }
      var response := request.Execute(Get, EventsPath, reply);
      match response
      case Fail(f) =>
        thrown := Some(f);
      case Ok(events) =>
        if |events| > 0 {
          ProcessEvents(events);
          var last := events[|events| - 1];
          if last.id.None? {
            thrown := Some(JsonError);
            return;
          }
          app.lastEventId := last.id.value;
          failures := 0;
        }
        if !registeredOrGotEventsThisRun {
          registeredOrGotEventsThisRun := true;
          effects := effects + [ReadyToDisplay(false)];
        }
        thrown := None;
    }

    /** `processEvents`: walks the batch once; a JSONException ends the walk and drops
        the collected messages, but not the pointer updates already made. */
    method ProcessEvents(events: seq<Event>)
      modifies this, app
      ensures var scan := ScanFrom(old(app.pointer), [], events);
        Snap() == old(Snap()).(pointer := scan.pointer) && effects == old(effects) + DispatchEffects(scan)
    {
      ghost var whole := ScanFrom(app.pointer, [], events);
      var messages: seq<Message> := [];
      var aborted := false;
      var i := 0;
      while i < |events| && !aborted
        decreases |events| - i, !aborted
        invariant 0 <= i <= |events|
        invariant !aborted ==> whole == ScanFrom(app.pointer, messages, events[i..])
        invariant aborted ==> whole == Scan(app.pointer, messages, true)
        invariant Snap() == old(Snap()).(pointer := app.pointer) && effects == old(effects)
      {
        assert events[i..][1..] == events[i + 1..];
        match events[i].payload {
          case MessagePayload(m) =>
            messages := messages + [m];
          case PointerPayload(p) =>
            app.pointer := p;
          case OtherType =>
          case Malformed =>
            aborted := true;
        }
        if !aborted {
          i := i + 1;
        }
      }
      if !aborted {
        assert events[i..] == [];
      }
      if !aborted && |messages| > 0 {
        effects := effects + [StoreMessages(messages)];
        ProcessMessages(messages);
      }
    }

    /** `processMessages`: advances the message range to the last message and hands
        the whole batch to the UI at once. */
    method ProcessMessages(messages: seq<Message>)
      requires |messages| > 0
      modifies this
      ensures Snap() == old(Snap())
      ensures effects == old(effects) + [UpdateRange(messages[|messages| - 1].id), NewMessages(messages)]
    {
      var lastMessageId := messages[|messages| - 1].id;
      effects := effects + [UpdateRange(lastMessageId), NewMessages(messages)];
    }

    /** The catch clauses of `run()`. */
    method Catch(f: Failure) returns (next: Next)
      modifies this, app
      ensures Snap() == Handle(old(Snap()), f).0
      ensures effects == old(effects) + Handle(old(Snap()), f).1
      ensures next == Handle(old(Snap()), f).2
    {
      match f
      case HttpError(status, message) =>
        if status == 400 {
          if message.None? {
            // msg.contains throws a NullPointerException, caught outside the loop
            return Stop;
          }
          var msg := message.value;
          if Contains(msg, "Bad event queue id") || Contains(msg, "too old") {
            app.eventQueueId := None;
            return Continue;
          }
        }
        Backoff();
        next := Continue;
      case SocketTimeout =>
        next := Continue;
      case IOError(aborting) =>
        if aborting {
          return Stop;
        }
        Backoff();
        next := Continue;
      case JsonError =>
        Backoff();
        next := Continue;
      case Unexpected =>
        next := Stop;
    }

    /** Lines 79-82 of `run()`: the properties are cleared, and the engine registers
        when it has no queue id. */
    method BeginPass(reply: Reply<Registration>) returns (thrown: Option<Failure>)
      modifies this, app, request
      ensures var r := RegisterPhase(old(Snap()), reply);
        && Snap() == r.state && request.properties == r.properties && thrown == r.thrown
        && request.sent == old(request.sent) + r.requests && effects == old(effects) + r.effects
    {
      request.ClearProperties();
      thrown := None;
      if app.eventQueueId.None? {
        thrown := Register(reply);
      }
    }

    /** One pass of the `while (true)` loop of `run()`. */
    method Iterate(round: Round) returns (next: Next)
      modifies this, app, request
      ensures var o := Step(old(Snap()), round);
        && Snap() == o.state && request.sent == old(request.sent) + o.requests
        && effects == old(effects) + o.effects && next == o.next
    {
      ghost var s0, sent0, effects0 := Snap(), request.sent, effects;
      ghost var r := RegisterPhase(s0, round.register);
      var thrown := BeginPass(round.register);
      ghost var p := PollPhase(r, round.poll);
      thrown := PollUnlessThrown(round.poll, thrown, r, sent0, effects0);
      next := EndPass(thrown, p, sent0, effects0);
    }

    /** Lines 83-111 of `run()`, reached only when nothing was thrown before them;
        `r` is the pass so far, begun with `sent0` and `effects0` recorded. */
    method PollUnlessThrown(reply: Reply<seq<Event>>, thrown: Option<Failure>,
                            ghost r: Partial, ghost sent0: seq<Request>, ghost effects0: seq<Effect>)
      returns (thrown': Option<Failure>)
      requires r.thrown.None? ==> r.state.queueId.Some?
      requires Snap() == r.state && request.properties == r.properties && thrown == r.thrown
      requires request.sent == sent0 + r.requests && effects == effects0 + r.effects
      modifies this, app, request
      ensures var p := PollPhase(r, reply);
        && Snap() == p.state && thrown' == p.thrown
        && request.sent == sent0 + p.requests && effects == effects0 + p.effects
    {
      thrown' := thrown;
      if thrown.None? {
        thrown' := Poll(reply);
      }
    }

    /** The catch clauses, when the pass `p` threw. */
    method EndPass(thrown: Option<Failure>, ghost p: Partial, ghost sent0: seq<Request>, ghost effects0: seq<Effect>)
      returns (next: Next)
      requires Snap() == p.state && thrown == p.thrown
      requires request.sent == sent0 + p.requests && effects == effects0 + p.effects
      modifies this, app
      ensures var o := Finish(p);
        && Snap() == o.state && request.sent == sent0 + o.requests
        && effects == effects0 + o.effects && next == o.next
    {
      match thrown
      case None =>
        next := Continue;
      case Some(f) =>
        next := Catch(f);
    }

    /** `run()`: passes of the loop, one per round of answers, until one of them
        leaves the loop or the answers run out. */
    method Run(rounds: seq<Round>) returns (used: nat, stopped: bool)
      modifies this, app, request
      ensures var t := RunFrom(old(Snap()), old(request.sent), old(effects), 0, rounds);
        && Snap() == t.state && request.sent == t.requests && effects == t.effects
        && used == t.used && stopped == t.stopped
    {
      ghost var whole := RunFrom(Snap(), request.sent, effects, 0, rounds);
      used, stopped := 0, false;
      while used < |rounds|
        invariant used <= |rounds|
        invariant whole == RunFrom(Snap(), request.sent, effects, used, rounds[used..])
      {
        assert rounds[used..][1..] == rounds[used + 1..];
        var next := Iterate(rounds[used]);
        used := used + 1;
        if next == Stop {
          stopped := true;
          return;
        }
      }
    }
  }
}
