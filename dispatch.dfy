/** The meaning of `processEvents`/`processMessages`: how one batch of events moves
    the pointer and which messages it hands to the database and the UI. */
module Dispatch {
  import opened Wire

  /** Where the walk over a batch ends: the pointer, the messages collected so far,
      and whether a JSONException cut the walk short. */
  datatype Scan = Scan(pointer: int, messages: seq<Message>, aborted: bool)

  /** The `for` loop of `processEvents`, from pointer `pointer` with `collected` already
      gathered: messages are appended, pointer events are applied at once, other
      types are skipped, and the first malformed event ends the walk. */
  function ScanFrom(pointer: int, collected: seq<Message>, events: seq<Event>): (r: Scan)
    ensures |collected| <= |r.messages| <= |collected| + |events|
    ensures r.messages[..|collected|] == collected
    ensures (forall i :: 0 <= i < |events| ==> !events[i].payload.Malformed?) ==> !r.aborted
    decreases |events|
  {
    if events == [] then
      Scan(pointer, collected, false)
    else
      match events[0].payload
      case Malformed => Scan(pointer, collected, true)
      case MessagePayload(m) => ScanFrom(pointer, collected + [m], events[1..])
      case PointerPayload(p) => ScanFrom(p, collected, events[1..])
      case OtherType => ScanFrom(pointer, collected, events[1..])
  }

  /** What `processEvents` hands on once the loop is over: nothing when the loop was
      cut short or collected no message, else the batch is stored, the range is
      advanced to the last message's id and the UI is told, in that order. */
  function DispatchEffects(scan: Scan): (e: seq<Effect>)
    ensures e != [] <==> !scan.aborted && |scan.messages| > 0
    ensures e != [] ==> |e| == 3 && e[0] == StoreMessages(scan.messages) && e[2] == NewMessages(scan.messages)
    ensures forall i :: 0 <= i < |e| ==> !e[i].ReadyToDisplay? && !e[i].Sleep?
  {
    if scan.aborted || scan.messages == [] then []
    else
      var ms := scan.messages;
      [StoreMessages(ms), UpdateRange(ms[|ms| - 1].id), NewMessages(ms)]
  }

  // Reference definitions, written independently of the loop.

  /** The message events of a batch, in batch order. */
  function MessagesOf(events: seq<Event>): seq<Message>
  {
    if events == [] then []
    else
      (match events[0].payload case MessagePayload(m) => [m] case _ => [])
      + MessagesOf(events[1..])
  }

  /** The value of the last pointer event of `events`, or `pointer` when there is none. */
  function LastPointer(pointer: int, events: seq<Event>): int
  {
    if events == [] then pointer
    else
      match events[|events| - 1].payload
      case PointerPayload(p) => p
      case _ => LastPointer(pointer, events[..|events| - 1])
  }

  /** The index of the first malformed event, or the batch length when there is none. */
  function FirstMalformed(events: seq<Event>): (k: nat)
    ensures k <= |events|
    ensures k < |events| ==> events[k].payload.Malformed?
    ensures forall i :: 0 <= i < k ==> !events[i].payload.Malformed?
  {
    if events == [] then 0
    else if events[0].payload.Malformed? then 0
    else 1 + FirstMalformed(events[1..])
  }

  function NextPointer(pointer: int, e: Event): int
  {
    match e.payload case PointerPayload(p) => p case _ => pointer
  }

  lemma {:induction false} LastPointerCons(pointer: int, e: Event, rest: seq<Event>)
    ensures LastPointer(pointer, [e] + rest) == LastPointer(NextPointer(pointer, e), rest)
    decreases |rest|
  {
    var all := [e] + rest;
    if rest == [] {
      assert all[..0] == [];
    } else {
      assert all[|all| - 1] == rest[|rest| - 1];
      if !rest[|rest| - 1].payload.PointerPayload? {
        assert all[..|all| - 1] == [e] + rest[..|rest| - 1];
        LastPointerCons(pointer, e, rest[..|rest| - 1]);
      }
    }
  }

  /** The walk stops exactly at the first malformed event; up to there it applies the
      last pointer event and collects the message events in order. */
  lemma {:induction false} ScanFromMeaning(pointer: int, collected: seq<Message>, events: seq<Event>)
    ensures var k := FirstMalformed(events);
      ScanFrom(pointer, collected, events)
        == Scan(LastPointer(pointer, events[..k]), collected + MessagesOf(events[..k]), k < |events|)
    decreases |events|
  {
    if events != [] {
      var e, rest := events[0], events[1..];
      var k := FirstMalformed(events);
      if e.payload.Malformed? {
        assert events[..k] == [];
      } else {
        var k' := FirstMalformed(rest);
        assert k == k' + 1;
        assert events[..k] == [e] + rest[..k'];
        assert ([e] + rest[..k'])[1..] == rest[..k'];
        LastPointerCons(pointer, e, rest[..k']);
        match e.payload
        case MessagePayload(m) =>
          ScanFromMeaning(pointer, collected + [m], rest);
        case PointerPayload(p) =>
          ScanFromMeaning(p, collected, rest);
        case OtherType =>
          ScanFromMeaning(pointer, collected, rest);
      }
    }
  }

  /** `processEvents` on a batch: the pointer ends at the last pointer event before the
      first malformed event; when there is no malformed event and the batch holds
      messages, they are stored, the range is advanced to the last one's id and the UI
      is told exactly once, all in batch order; otherwise nothing is stored or announced. */
  lemma ProcessEventsMeaning(pointer: int, events: seq<Event>)
    ensures var scan := ScanFrom(pointer, [], events);
      && scan.pointer == LastPointer(pointer, events[..FirstMalformed(events)])
      && (scan.aborted <==> exists i :: 0 <= i < |events| && events[i].payload.Malformed?)
      && DispatchEffects(scan)
          == if scan.aborted || MessagesOf(events) == [] then []
             else
               var ms := MessagesOf(events);
               [StoreMessages(ms), UpdateRange(ms[|ms| - 1].id), NewMessages(ms)]
  {
    ScanFromMeaning(pointer, [], events);
    var k := FirstMalformed(events);
    if k == |events| {
      assert events[..k] == events;
      assert [] + MessagesOf(events) == MessagesOf(events);
    }
  }

  /** A malformed event discards every message of the batch but keeps the pointer
      updates that came before it. */
  lemma MalformedEventDiscardsMessages(pointer: int, events: seq<Event>, k: nat)
    requires k < |events| && events[k].payload.Malformed?
    requires forall i :: 0 <= i < k ==> !events[i].payload.Malformed?
    ensures var scan := ScanFrom(pointer, [], events);
      && scan.aborted
      && DispatchEffects(scan) == []
      && scan.pointer == LastPointer(pointer, events[..k])
  {
    ScanFromMeaning(pointer, [], events);
    var f := FirstMalformed(events);
    assert f == k;
  }
}
