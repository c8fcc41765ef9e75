/** examples/batcher/batcher.go: the event loop that groups items into batches.

    The loop owns one buffer and reuses it for every batch; a batch that leaves is
    a copy. The environment decides what each select finds: an item, the end of
    the input, a tick of the armed timer, or, if the context may be cancelled at
    all, its cancellation at any select.
 */
module Batcher {

  /** What a select on the input and the timer may find. A tick is offered only
      to an armed timer; otherwise it is not there to be received. */
  datatype Event<T> = Item(item: T) | InputClosed | Tick

  datatype End = Drained | Stopped | StillRunning

  function Concat<T>(batches: seq<seq<T>>): seq<T> {
    if batches == [] then [] else Concat(batches[..|batches| - 1]) + batches[|batches| - 1]
  }

  lemma ConcatAppend<T>(batches: seq<seq<T>>, b: seq<T>)
    ensures Concat(batches + [b]) == Concat(batches) + b
  {
    assert (batches + [b])[..|batches|] == batches;
  }

  function Read<T>(event: Event<T>): seq<T> {
    if event.Item? then [event.item] else []
  }

  /** The items among the events, up to the end of the input. */
  function Items<T>(events: seq<Event<T>>): seq<T> {
    if events == [] || events[0].InputClosed? then []
    else Read(events[0]) + Items(events[1..])
  }

  /** What an event makes of the pending items: the batches that end with it, */
  function Sent<T>(event: Event<T>, pending: seq<T>, maxSize: nat): seq<seq<T>> {
    match event
    case Item(x) => if |pending| + 1 >= maxSize then [pending + [x]] else []
    case Tick => if pending == [] then [] else [pending]
    case InputClosed => if pending == [] then [] else [pending]
  }

  /** and the items that stay pending. */
  function Left<T>(event: Event<T>, pending: seq<T>, maxSize: nat): seq<T> {
    match event
    case Item(x) => if |pending| + 1 >= maxSize then [] else pending + [x]
    case Tick => []
    case InputClosed => []
  }

  /** The batches an uncancelled loop sends, told without any buffer or timer. */
  function Batches<T>(events: seq<Event<T>>, pending: seq<T>, maxSize: nat): seq<seq<T>> {
    if events == [] then []
    else if events[0].InputClosed? then Sent(events[0], pending, maxSize)
    else Sent(events[0], pending, maxSize) + Batches(events[1..], Left(events[0], pending, maxSize), maxSize)
  }

  /** Only the timer and the end of the input cut a batch short: if no tick comes,
      every batch but the last is full. */
  lemma {:induction false} FullWithoutTicks<T>(events: seq<Event<T>>, pending: seq<T>, maxSize: nat, i: nat)
    requires |pending| < maxSize && Tick !in events
    requires i < |Batches(events, pending, maxSize)| - 1
    ensures |Batches(events, pending, maxSize)[i]| == maxSize
  {
    var now, left := Sent(events[0], pending, maxSize), Left(events[0], pending, maxSize);
    assert events[0] != Tick;
    if i >= |now| {
      FullWithoutTicks(events[1..], left, maxSize, i - |now|);
    }
  }

  lemma {:induction false} ConcatSplit<T>(xs: seq<seq<T>>, ys: seq<seq<T>>)
    ensures Concat(xs + ys) == Concat(xs) + Concat(ys)
  {
    if ys == [] {
      assert xs + ys == xs;
    } else {
      var n := |ys| - 1;
      ConcatSplit(xs, ys[..n]);
      assert xs + ys == xs + ys[..n] + [ys[n]];
      ConcatAppend(xs + ys[..n], ys[n]);
    }
  }

  /** An event moves items only from what is pending, or has just been read, into
      what is sent. */
  lemma SentAndLeft<T>(event: Event<T>, pending: seq<T>, maxSize: nat)
    ensures Concat(Sent(event, pending, maxSize)) + Left(event, pending, maxSize) == pending + Read(event)
  {
    var now := Sent(event, pending, maxSize);
    if now != [] {
      ConcatAppend([], now[0]);
      assert [] + now == now;
    }
  }

  lemma Regroup<T>(sent: seq<T>, left: seq<T>, pending: seq<T>, read: seq<T>, rest: seq<T>)
    requires sent + left == pending + read
    ensures sent + (left + rest) == pending + (read + rest)
  {
    assert sent + (left + rest) == (sent + left) + rest;
    assert pending + (read + rest) == (pending + read) + rest;
  }

  lemma BatchesLast<T>(last: Event<T>, pending: seq<T>, maxSize: nat)
    requires !last.Item?
    ensures Concat(Batches([] + [last], pending, maxSize)) == pending + Items([])
  {
    assert [] + [last] == [last] && [last][1..] == [];
    assert Batches([last], pending, maxSize) == Sent(last, pending, maxSize);
    SentAndLeft(last, pending, maxSize);
  }

  lemma BatchesNext<T>(events: seq<Event<T>>, last: Event<T>, pending: seq<T>, maxSize: nat)
    requires events != [] && !events[0].InputClosed?
    ensures Batches(events + [last], pending, maxSize)
      == Sent(events[0], pending, maxSize)
         + Batches(events[1..] + [last], Left(events[0], pending, maxSize), maxSize)
  {
    assert (events + [last])[1..] == events[1..] + [last];
  }

  /** A tick and the end of the input leave nothing behind: every item received
      before, and nothing else, is in some batch that is sent by then. */
  lemma {:induction false} NothingStays<T>(events: seq<Event<T>>, last: Event<T>, pending: seq<T>, maxSize: nat)
    requires (forall i | 0 <= i < |events| :: !events[i].InputClosed?) && !last.Item?
    ensures Concat(Batches(events + [last], pending, maxSize)) == pending + Items(events)
  {
    if events == [] {
      BatchesLast(last, pending, maxSize);
    } else {
      var now, left := Sent(events[0], pending, maxSize), Left(events[0], pending, maxSize);
      var rest := Batches(events[1..] + [last], left, maxSize);
      BatchesNext(events, last, pending, maxSize);
      NothingStays(events[1..], last, left, maxSize);
      ConcatSplit(now, rest);
      SentAndLeft(events[0], pending, maxSize);
      Regroup(Concat(now), left, pending, Read(events[0]), Items(events[1..]));
    }
  }

  /** What came in, what went out, and what was kept or dropped on the way. */
  datatype History<T> = History(received: seq<T>, emitted: seq<seq<T>>, pending: seq<T>, lost: seq<T>)

  class Loop<T(0)> {
    const buffer: array<T>            // the backing array of `batch`
    var size: nat                     // len(batch)
    var armed: bool                   // timerC != nil
    var outputs: seq<array<T>>        // the slices sent on output
    ghost var emitted: seq<seq<T>>    // what each held when it was sent
    ghost var received: seq<T>
    ghost var lost: seq<T>            // a copy that was made but not sent

    ghost predicate Valid()
      reads this, buffer, outputs
    {
      && buffer.Length > 0
      && size <= buffer.Length
      && |outputs| == |emitted|
      && (forall i | 0 <= i < |outputs| :: outputs[i] != buffer && outputs[i][..] == emitted[i])
      && (forall i | 0 <= i < |emitted| :: 1 <= |emitted[i]| <= buffer.Length)
      && received == Concat(emitted) + lost + buffer[..size]
    }

    /** The state at the head of the loop: the timer is armed exactly while items
        are pending, and a full buffer has been flushed. */
    ghost predicate AtHead()
      reads this, buffer, outputs
    {
      Valid() && lost == [] && size < buffer.Length && (armed <==> size > 0)
    }

    /** The batches sent before are kept, and at most one new slice follows them. */
    twostate predicate Kept(before: seq<array<T>>)
      reads this
    {
      && |before| <= |outputs| <= |before| + 1
      && (forall i | 0 <= i < |outputs| :: if i < |before| then outputs[i] == before[i] else fresh(outputs[i]))
    }

    ghost function Story(): History<T>
      requires size <= buffer.Length
      reads this, buffer
    {
      History(received, emitted, buffer[..size], lost)
    }

    constructor (maxSize: nat)
      requires maxSize > 0
      ensures AtHead() && fresh(buffer) && buffer.Length == maxSize
      ensures outputs == [] && Story() == History([], [], [], [])
    {
      buffer := new T[maxSize];
      size, armed, outputs, emitted, received, lost := 0, false, [], [], [], [];
    }

    method StartTimer()
      modifies this`armed
      ensures armed
    {
      if armed {
        return;
      }
      armed := true;
    }

    method StopActiveTimer()
      modifies this`armed
      ensures !armed
    {
      if !armed {
        return;
      }
      armed := false;
    }

    /** `append([]T(nil), batch...)`: a new slice with the pending items. */
    method CopyPending() returns (items: array<T>)
      requires size <= buffer.Length
      ensures fresh(items) && items[..] == buffer[..size]
    {
      items := new T[size];
      forall i | 0 <= i < size {
        items[i] := buffer[i];
      }
    }

    /** `output <- items`: the copy made by flush leaves, and is not lost. */
    method Send(items: array<T>)
      requires Valid() && size == 0 && lost == items[..] && 1 <= items.Length <= buffer.Length && items != buffer
      modifies this`outputs, this`emitted, this`lost
      ensures Valid() && lost == []
      ensures outputs == old(outputs) + [items] && emitted == old(emitted) + [items[..]]
    {
      ConcatAppend(emitted, items[..]);
      outputs := outputs + [items];
      emitted := emitted + [items[..]];
      lost := [];
    }

    /** flush (batcher.go:69-84). `deliver` resolves its select. The batches sent
        before stay as they were, although the buffer is emptied for reuse. */
    method Flush(deliver: bool) returns (ok: bool)
      requires Valid() && lost == []
      modifies this
      ensures Valid() && size == 0 && received == old(received)
      ensures !ok ==> lost == old(buffer[..size])
      ensures ok == (deliver || old(size) == 0) && (ok ==> lost == [])
      ensures old(size) == 0 ==> outputs == old(outputs) && emitted == old(emitted) && armed == old(armed)
      ensures old(size) > 0 ==> !armed
      ensures old(size) > 0 && deliver ==> emitted == old(emitted) + [old(buffer[..size])]
      ensures old(size) > 0 && !deliver ==> outputs == old(outputs) && emitted == old(emitted)
      ensures Kept(old(outputs))
    {
      if size == 0 {
        return true;
      }
      var items := CopyPending();
      lost := items[..];
      size := 0;
      StopActiveTimer();
      if deliver {
        Send(items);
      }
      return deliver;
    }

    /** Receiving an item (batcher.go:96-102). */
    method TakeItem(item: T, deliver: bool) returns (ok: bool)
      requires AtHead()
      modifies this, buffer
      ensures Valid() && received == old(received) + [item]
      ensures if ok then AtHead() else !deliver && size == 0 && emitted == old(emitted)
      ensures ok ==> emitted == old(emitted) + Sent(Item(item), old(buffer[..size]), buffer.Length)
      ensures ok ==> buffer[..size] == Left(Item(item), old(buffer[..size]), buffer.Length)
      ensures |lost| <= buffer.Length && Kept(old(outputs))
    {
      ghost var pending := buffer[..size];
      buffer[size] := item;
      size := size + 1;
      received := received + [item];
      assert buffer[..size] == pending + [item];
      if size == 1 {
        StartTimer();
      }
      ok := true;
      if size >= buffer.Length {
        ok := Flush(deliver);
      }
    }

    /** A tick of the armed timer (batcher.go:103-107). */
    method TakeTick(deliver: bool) returns (ok: bool)
      requires AtHead() && armed
      modifies this
      ensures Valid() && received == old(received)
      ensures ok == deliver && size == 0 && (ok ==> AtHead())
      ensures emitted == if ok then old(emitted) + [old(buffer[..size])] else old(emitted)
      ensures |lost| <= buffer.Length && Kept(old(outputs))
    {
      armed := false;
      ok := Flush(deliver);
    }

    /** One turn of the loop that finds `event` (batcher.go:90-108). A tick is only
        there to be received while the timer is armed. */
    method Turn(event: Event<T>, deliver: bool) returns (end: End)
      requires AtHead()
      modifies this, buffer
      ensures Valid() && Kept(old(outputs))
      ensures Turned(event, buffer.Length, old(Story()), end, Story())
      ensures end == StillRunning ==> AtHead()
      ensures end == Stopped ==> !deliver
    {
      var ok := true;
      match event {
        case Item(item) =>
          ok := TakeItem(item, deliver);
        case Tick =>
          if armed {
            ok := TakeTick(deliver);
          }
        case InputClosed =>
          ok := Flush(deliver);
      }
      end := if !ok then Stopped else if event.InputClosed? then Drained else StillRunning;
    }
  }

  /** After k events, what is still to be read leads where reading from the start
      leads. */
  ghost predicate ReadSoFar<T>(events: seq<Event<T>>, maxSize: nat, k: nat, h: History<T>)
    requires k <= |events|
  {
    && Items(events) == h.received + Items(events[k..])
    && Batches(events, [], maxSize) == h.emitted + Batches(events[k..], h.pending, maxSize)
  }

  lemma ReadNextItem<T>(events: seq<Event<T>>, k: nat, received: seq<T>)
    requires k < |events| && Items(events) == received + Items(events[k..])
    ensures if events[k].InputClosed? then Items(events) == received
      else Items(events) == received + Read(events[k]) + Items(events[k + 1..])
  {
    assert events[k..][1..] == events[k + 1..];
  }

  lemma ReadNextBatch<T>(events: seq<Event<T>>, maxSize: nat, k: nat, emitted: seq<seq<T>>, pending: seq<T>)
    requires k < |events| && Batches(events, [], maxSize) == emitted + Batches(events[k..], pending, maxSize)
    ensures var sent := emitted + Sent(events[k], pending, maxSize);
      if events[k].InputClosed? then Batches(events, [], maxSize) == sent
      else Batches(events, [], maxSize) == sent + Batches(events[k + 1..], Left(events[k], pending, maxSize), maxSize)
  {
    assert events[k..][1..] == events[k + 1..];
  }

  /** Where the loop may stand after k events. */
  ghost predicate Reached<T>(events: seq<Event<T>>, maxSize: nat, k: nat, end: End, h: History<T>)
    requires k <= |events|
  {
    match end
    case StillRunning =>
      && h.lost == [] && |h.pending| < maxSize && (forall i | 0 <= i < k :: !events[i].InputClosed?)
      && ReadSoFar(events, maxSize, k, h)
    case Drained =>
      && h.lost == [] && h.pending == [] && 0 < k && events[k - 1].InputClosed?
      && h.received == Items(events) && h.emitted == Batches(events, [], maxSize)
    case Stopped =>
      && (h.lost == [] || h.pending == []) && |h.lost| <= maxSize && |h.pending| <= maxSize
      && h.received <= Items(events) && h.emitted <= Batches(events, [], maxSize)
  }

  /** One turn that finds `event`: either everything due was sent, or the
      cancellation won in flush and the copy made there is lost. */
  ghost predicate Turned<T>(event: Event<T>, maxSize: nat, h: History<T>, end: End, h': History<T>) {
    && h'.received == h.received + Read(event)
    && |h'.lost| <= maxSize
    && if end == Stopped then h'.pending == [] && h'.emitted == h.emitted
       else
         && (end == Drained <==> event.InputClosed?)
         && h' == History(h'.received, h.emitted + Sent(event, h.pending, maxSize), Left(event, h.pending, maxSize), [])
  }

  lemma ReachNext<T>(events: seq<Event<T>>, maxSize: nat, k: nat, h: History<T>, end: End, h': History<T>)
    requires maxSize > 0 && k < |events| && Reached(events, maxSize, k, StillRunning, h)
    requires Turned(events[k], maxSize, h, end, h')
    ensures Reached(events, maxSize, k + 1, end, h')
  {
    ReadNextItem(events, k, h.received);
    ReadNextBatch(events, maxSize, k, h.emitted, h.pending);
  }

  lemma ReachedEnd<T>(events: seq<Event<T>>, maxSize: nat, k: nat, end: End, h: History<T>)
    requires k <= |events| && Reached(events, maxSize, k, end, h)
    requires end == StillRunning ==> k == |events|
    ensures h.received <= Items(events) && h.emitted <= Batches(events, [], maxSize)
    ensures |h.lost + h.pending| <= maxSize
    ensures end != Stopped ==> h.received == Items(events) && h.emitted == Batches(events, [], maxSize)
    ensures end != Stopped ==> (end == Drained <==> exists i | 0 <= i < |events| :: events[i].InputClosed?)
  {
    if end == StillRunning {
      assert events[k..] == [];
    }
  }

  /** One turn of the loop (batcher.go:86-109). Its select may find the context
      done, and so may the one in flush (`refuse`). */
  method Select<T(0)>(loop: Loop<T>, events: seq<Event<T>>, k: nat, done: bool, refuse: bool, ghost h: History<T>)
    returns (end: End, k': nat, ghost h': History<T>)
    requires k < |events| && loop.AtHead() && loop.Story() == h
    requires Reached(events, loop.buffer.Length, k, StillRunning, h)
    modifies loop, loop.buffer
    ensures loop.Valid() && loop.Story() == h' && (end == StillRunning ==> loop.AtHead())
    ensures k <= k' <= k + 1 && (end == StillRunning ==> k' == k + 1)
    ensures Reached(events, loop.buffer.Length, k', end, h')
    ensures end == Stopped ==> done || refuse
  {
    if done {
      return Stopped, k, h;
    }
    end := loop.Turn(events[k], !refuse);
    h' := loop.Story();
    ReachNext(events, loop.buffer.Length, k, h, end, h');
    k' := k + 1;
  }

  /** The loop of `run` from the state it starts in. */
  method Drive<T(0)>(loop: Loop<T>, events: seq<Event<T>>, cancels: bool) returns (end: End, ghost h: History<T>)
    requires loop.AtHead() && loop.Story() == History([], [], [], [])
    modifies loop, loop.buffer
    ensures loop.Valid() && loop.Story() == h
    ensures h.received <= Items(events) && h.emitted <= Batches(events, [], loop.buffer.Length)
    ensures |h.lost + h.pending| <= loop.buffer.Length
    ensures end == Drained ==> h.lost + h.pending == []
    ensures end == StillRunning ==> h.lost == [] && |h.pending| < loop.buffer.Length
    ensures end == Stopped ==> cancels
    ensures end != Stopped ==> h.received == Items(events) && h.emitted == Batches(events, [], loop.buffer.Length)
    ensures end != Stopped ==> (end == Drained <==> exists i | 0 <= i < |events| :: events[i].InputClosed?)
  {
    var k := 0;
    end, h := StillRunning, loop.Story();
    while k < |events| && end == StillRunning
      invariant 0 <= k <= |events|
      invariant loop.Valid() && loop.Story() == h && (end == StillRunning ==> loop.AtHead())
      invariant Reached(events, loop.buffer.Length, k, end, h)
      invariant end == Stopped ==> cancels
      decreases |events| - k, end == StillRunning
    {
      var done: bool, refuse: bool := *, *;
      end, k, h := Select(loop, events, k, cancels && done, cancels && refuse, h);
    }
    ReachedEnd(events, loop.buffer.Length, k, end, h);
  }

  /** `run` (batcher.go:43-110) against an arbitrary sequence of events; `cancels`
      says whether the context may ever be done. Whatever happens, the batches sent
      are a prefix of `Batches` and hold the items received, in order and in groups
      of 1 to maxSize, up to what is pending or was dropped by a cancellation; a
      batch that was sent never changes; and without cancellation nothing is lost:
      the whole input arrives once it is closed. */
  method Run<T(0)>(events: seq<Event<T>>, maxSize: nat, cancels: bool)
    returns (outputs: seq<array<T>>, ghost h: History<T>, end: End)
    requires maxSize > 0
    ensures |outputs| == |h.emitted|
    ensures forall i | 0 <= i < |outputs| :: outputs[i][..] == h.emitted[i] && 1 <= |h.emitted[i]| <= maxSize
    ensures h.received <= Items(events) && h.emitted <= Batches(events, [], maxSize)
    ensures h.received == Concat(h.emitted) + h.lost + h.pending && |h.lost + h.pending| <= maxSize
    ensures end == Drained ==> h.lost + h.pending == []
    ensures end == StillRunning ==> h.lost == [] && |h.pending| < maxSize
    ensures end == Stopped ==> cancels
    ensures !cancels ==> h.received == Items(events) && h.emitted == Batches(events, [], maxSize)
    ensures !cancels ==> (end == Drained <==> exists i | 0 <= i < |events| :: events[i].InputClosed?)
  {
    var loop := new Loop<T>(maxSize);
    end, h := Drive(loop, events, cancels);
    outputs := loop.outputs;
  }
}
