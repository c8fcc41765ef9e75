/** examples/boundedqueue/queue.go: a bounded FIFO with two condition variables.

    Any number of goroutines call Enqueue, Dequeue and Close at any time. One
    step is one critical section: from Lock, or from waking up inside Wait, to
    the next Wait or Unlock. A broadcast of Close is a step of its own, because
    Close broadcasts after it has unlocked the mutex.
 */
module BoundedQueue {
  import opened Sums
  import Runs

  datatype Outcome<T> = NoCall | Accepted | Took(item: T) | ErrClosed | Shut

  datatype Pc<T> =
    | Idle(last: Outcome<T>)     // between calls; the result of the last one
    | EnqEnter(item: T)          // about to lock the mutex in Enqueue
    | EnqAsleep(item: T)         // in notFull's wait set
    | EnqWoken(item: T)          // notified, about to lock the mutex again
    | DeqEnter
    | DeqAsleep                  // in notEmpty's wait set
    | DeqWoken
    | CloseEnter
    | WakeProducers              // Close has unlocked, notFull.Broadcast is next
    | WakeConsumers              // notEmpty.Broadcast is next

  datatype State<T> = State(
    capacity: nat,
    items: seq<T>,
    closed: bool,
    pcs: seq<Pc<T>>,
    accepted: seq<T>,     // every item an Enqueue has accepted, in order
    removed: seq<T>)      // every item a Dequeue has returned, in order

  /** `w` is the sleeper that a Signal wakes, when there is one. */
  datatype Action<T> =
    | CallEnqueue(g: nat, item: T)
    | CallDequeue(g: nat)
    | CallClose(g: nat)
    | Enqueue(g: nat, w: nat)
    | Dequeue(g: nat, w: nat)
    | Close(g: nat)
    | BroadcastFull(g: nat)
    | BroadcastEmpty(g: nat)

  // --------------------------------------------------- condition variables

  predicate InEnqueue<T>(pc: Pc<T>) {
    pc.EnqEnter? || pc.EnqWoken?
  }

  predicate InDequeue<T>(pc: Pc<T>) {
    pc.DeqEnter? || pc.DeqWoken?
  }

  /** Signal may wake any one sleeper and does nothing if there is none. */
  predicate SignalsConsumer<T>(pcs: seq<Pc<T>>, w: nat) {
    (w < |pcs| && pcs[w].DeqAsleep?) || forall i | 0 <= i < |pcs| :: !pcs[i].DeqAsleep?
  }

  predicate SignalsProducer<T>(pcs: seq<Pc<T>>, w: nat) {
    (w < |pcs| && pcs[w].EnqAsleep?) || forall i | 0 <= i < |pcs| :: !pcs[i].EnqAsleep?
  }

  function SignalConsumer<T>(pcs: seq<Pc<T>>, w: nat): seq<Pc<T>> {
    if w < |pcs| && pcs[w].DeqAsleep? then pcs[w := DeqWoken] else pcs
  }

  function SignalProducer<T>(pcs: seq<Pc<T>>, w: nat): seq<Pc<T>> {
    if w < |pcs| && pcs[w].EnqAsleep? then pcs[w := EnqWoken(pcs[w].item)] else pcs
  }

  function WakeAllProducers<T>(pcs: seq<Pc<T>>): seq<Pc<T>> {
    seq(|pcs|, i requires 0 <= i < |pcs| => if pcs[i].EnqAsleep? then EnqWoken(pcs[i].item) else pcs[i])
  }

  function WakeAllConsumers<T>(pcs: seq<Pc<T>>): seq<Pc<T>> {
    seq(|pcs|, i requires 0 <= i < |pcs| => if pcs[i].DeqAsleep? then DeqWoken else pcs[i])
  }

  // ----------------------------------------------------------------- steps

  predicate Can<T>(s: State<T>, a: Action<T>) {
    && a.g < |s.pcs|
    && var pc := s.pcs[a.g];
    match a
    case CallEnqueue(_, _) => pc.Idle?
    case CallDequeue(_) => pc.Idle?
    case CallClose(_) => pc.Idle?
    case Enqueue(_, w) => InEnqueue(pc) && SignalsConsumer(s.pcs, w)
    case Dequeue(_, w) => InDequeue(pc) && SignalsProducer(s.pcs, w)
    case Close(_) => pc.CloseEnter?
    case BroadcastFull(_) => pc.WakeProducers?
    case BroadcastEmpty(_) => pc.WakeConsumers?
  }

  function Goto<T>(s: State<T>, g: nat, pc: Pc<T>): State<T>
    requires g < |s.pcs|
  {
    s.(pcs := s.pcs[g := pc])
  }

  function Apply<T>(s: State<T>, a: Action<T>): State<T>
    requires Can(s, a)
  {
    match a
    case CallEnqueue(g, item) => Goto(s, g, EnqEnter(item))
    case CallDequeue(g) => Goto(s, g, DeqEnter)
    case CallClose(g) => Goto(s, g, CloseEnter)
    case Enqueue(g, w) =>
      var item := s.pcs[g].item;
      if |s.items| == s.capacity && !s.closed then Goto(s, g, EnqAsleep(item))
      else if s.closed then Goto(s, g, Idle(ErrClosed))
      else
        s.(items := s.items + [item],
           accepted := s.accepted + [item],
           pcs := SignalConsumer(s.pcs, w)[g := Idle(Accepted)])
    case Dequeue(g, w) =>
      if |s.items| == 0 && !s.closed then Goto(s, g, DeqAsleep)
      else if |s.items| == 0 then Goto(s, g, Idle(ErrClosed))
      else
        s.(items := s.items[1..],
           removed := s.removed + [s.items[0]],
           pcs := SignalProducer(s.pcs, w)[g := Idle(Took(s.items[0]))])
    case Close(g) =>
      Goto(s, g, if s.closed then Idle(Shut) else WakeProducers).(closed := true)
    case BroadcastFull(g) => s.(pcs := WakeAllProducers(s.pcs)[g := WakeConsumers])
    case BroadcastEmpty(g) => s.(pcs := WakeAllConsumers(s.pcs)[g := Idle(Shut)])
  }

  predicate IsCall<T>(a: Action<T>) {
    a.CallEnqueue? || a.CallDequeue? || a.CallClose?
  }

  ghost predicate Next<T(!new)>(s: State<T>, t: State<T>) {
    exists a :: Can(s, a) && t == Apply(s, a)
  }

  /** A step of a call already under way; no new call is made. */
  ghost predicate Moves<T(!new)>(s: State<T>, t: State<T>) {
    exists a :: !IsCall(a) && Can(s, a) && t == Apply(s, a)
  }

  ghost predicate Init<T>(s: State<T>) {
    && s.capacity > 0 && s.items == [] && !s.closed && s.accepted == [] && s.removed == []
    && forall g | 0 <= g < |s.pcs| :: s.pcs[g] == Idle(NoCall)
  }

  // ------------------------------------------------------------- invariant

  function ConsumerWoken<T>(pc: Pc<T>): nat {
    if pc.DeqWoken? then 1 else 0
  }

  function ProducerWoken<T>(pc: Pc<T>): nat {
    if pc.EnqWoken? then 1 else 0
  }

  /** FIFO: what was accepted is what was removed followed by what is buffered. */
  ghost predicate Fifo<T>(s: State<T>) {
    && 0 < s.capacity
    && |s.items| <= s.capacity
    && s.accepted == s.removed + s.items
  }

  /** While open, a consumer may sleep only if there are at least as many
      notified consumers as items; and dually for producers and free slots. */
  ghost predicate OpenWakeups<T>(s: State<T>) {
    !s.closed ==> forall g | 0 <= g < |s.pcs| ::
      && (s.pcs[g].DeqAsleep? ==> |s.items| <= Sum(s.pcs, ConsumerWoken))
      && (s.pcs[g].EnqAsleep? ==> s.capacity - |s.items| <= Sum(s.pcs, ProducerWoken))
      && !s.pcs[g].WakeProducers? && !s.pcs[g].WakeConsumers?
  }

  /** After Close, sleepers remain only while their broadcast is still to come. */
  ghost predicate ClosedWakeups<T>(s: State<T>) {
    s.closed ==> forall g | 0 <= g < |s.pcs| ::
      && (s.pcs[g].EnqAsleep? ==> exists c | 0 <= c < |s.pcs| :: s.pcs[c].WakeProducers?)
      && (s.pcs[g].DeqAsleep? ==> exists c | 0 <= c < |s.pcs| :: s.pcs[c].WakeProducers? || s.pcs[c].WakeConsumers?)
  }

  ghost predicate Inv<T>(s: State<T>) {
    Fifo(s) && OpenWakeups(s) && ClosedWakeups(s)
  }

  /** The sum over all goroutines after one was signalled and the caller moved on. */
  lemma SumsAfterSignal<T>(pcs: seq<Pc<T>>, w: nat, woken: Pc<T>, g: nat, pc: Pc<T>, f: Pc<T> -> nat)
    requires w < |pcs| && g < |pcs| && w != g
    ensures Sum(pcs[w := woken][g := pc], f) + f(pcs[w]) + f(pcs[g]) == Sum(pcs, f) + f(woken) + f(pc)
  {
    SumUpdate(pcs, w, woken, f);
    SumUpdate(pcs[w := woken], g, pc, f);
  }

  lemma FifoStep<T>(s: State<T>, a: Action<T>)
    requires Inv(s) && Can(s, a)
    ensures Fifo(Apply(s, a))
  {
  }

  /** What one step does to the number of notified goroutines. */
  lemma SumsStep<T>(s: State<T>, a: Action<T>, f: Pc<T> -> nat)
    requires Can(s, a) && !a.BroadcastFull? && !a.BroadcastEmpty?
    ensures var t := Apply(s, a);
      var sum := Sum(t.pcs, f) + f(s.pcs[a.g]);
      if a.Enqueue? && t.pcs[a.g] == Idle(Accepted) && a.w < |s.pcs| && s.pcs[a.w].DeqAsleep? then
        sum + f(s.pcs[a.w]) == Sum(s.pcs, f) + f(t.pcs[a.g]) + f(DeqWoken)
      else if a.Dequeue? && t.pcs[a.g].Idle? && t.pcs[a.g].last.Took? && a.w < |s.pcs| && s.pcs[a.w].EnqAsleep? then
        sum + f(s.pcs[a.w]) == Sum(s.pcs, f) + f(t.pcs[a.g]) + f(EnqWoken(s.pcs[a.w].item))
      else
        sum == Sum(s.pcs, f) + f(t.pcs[a.g])
  {
    var t := Apply(s, a);
    SumUpdate(s.pcs, a.g, t.pcs[a.g], f);
    if a.Enqueue? && a.w < |s.pcs| && s.pcs[a.w].DeqAsleep? {
      SumsAfterSignal(s.pcs, a.w, DeqWoken, a.g, t.pcs[a.g], f);
    } else if a.Dequeue? && a.w < |s.pcs| && s.pcs[a.w].EnqAsleep? {
      SumsAfterSignal(s.pcs, a.w, EnqWoken(s.pcs[a.w].item), a.g, t.pcs[a.g], f);
    }
  }

  /** A consumer that sleeps is outnumbered: the consumers' half of OpenWakeups. */
  ghost predicate ConsumersFed<T>(s: State<T>) {
    forall g | 0 <= g < |s.pcs| :: s.pcs[g].DeqAsleep? ==> |s.items| <= Sum(s.pcs, ConsumerWoken)
  }

  ghost predicate ProducersFed<T>(s: State<T>) {
    forall g | 0 <= g < |s.pcs| :: s.pcs[g].EnqAsleep? ==> s.capacity - |s.items| <= Sum(s.pcs, ProducerWoken)
  }

  lemma ConsumersStep<T>(s: State<T>, a: Action<T>)
    requires Fifo(s) && ConsumersFed(s) && Can(s, a) && !a.BroadcastFull? && !a.BroadcastEmpty?
    requires !Apply(s, a).closed
    ensures ConsumersFed(Apply(s, a))
  {
    SumsStep(s, a, ConsumerWoken);
  }

  lemma ProducersStep<T>(s: State<T>, a: Action<T>)
    requires Fifo(s) && ProducersFed(s) && Can(s, a) && !a.BroadcastFull? && !a.BroadcastEmpty?
    requires !Apply(s, a).closed
    ensures ProducersFed(Apply(s, a))
  {
    SumsStep(s, a, ProducerWoken);
  }

  lemma OpenStep<T>(s: State<T>, a: Action<T>)
    requires Inv(s) && Can(s, a)
    ensures OpenWakeups(Apply(s, a))
  {
    if !Apply(s, a).closed {
      ConsumersStep(s, a);
      ProducersStep(s, a);
    }
  }

  lemma ClosedStep<T>(s: State<T>, a: Action<T>)
    requires Inv(s) && Can(s, a)
    ensures ClosedWakeups(Apply(s, a))
  {
    var t := Apply(s, a);
    if a.BroadcastFull? {
      assert t.pcs[a.g].WakeConsumers?;
    } else if a.Close? && !s.closed {
      assert t.pcs[a.g].WakeProducers?;
    } else {
      assert forall c | 0 <= c < |s.pcs| && s.pcs[c].WakeProducers? :: t.pcs[c].WakeProducers?;
      assert !a.BroadcastEmpty? ==> forall c | 0 <= c < |s.pcs| && s.pcs[c].WakeConsumers? :: t.pcs[c].WakeConsumers?;
    }
  }

  lemma InvStep<T>(s: State<T>, a: Action<T>)
    requires Inv(s) && Can(s, a)
    ensures Inv(Apply(s, a))
  {
    FifoStep(s, a);
    OpenStep(s, a);
    ClosedStep(s, a);
  }

  // ------------------------------------------------------------ termination

  function Weight<T>(n: nat): Pc<T> -> nat {
    (pc: Pc<T>) => match pc
      case Idle(_) => 0
      case EnqAsleep(_) => 1
      case DeqAsleep => 1
      case CloseEnter => 2 * n + 3
      case WakeProducers => 2 * n + 2
      case WakeConsumers => n + 1
      case _ => 2
  }

  function Measure<T>(s: State<T>): nat {
    Sum(s.pcs, Weight<T>(|s.pcs|))
  }

  /** Waking everybody costs less than the broadcaster's own weight. */
  lemma WokenWeight<T>(pcs: seq<Pc<T>>, awake: seq<Pc<T>>, g: nat, pc: Pc<T>, f: Pc<T> -> nat)
    requires g < |pcs| == |awake| && awake[g] == pcs[g] && f(pc) + |pcs| < f(pcs[g])
    requires forall i | 0 <= i < |pcs| :: f(awake[i]) <= f(pcs[i]) + 1
    ensures Sum(awake[g := pc], f) < Sum(pcs, f)
  {
    SumRaised(pcs, awake, 1, f);
    SumUpdate(awake, g, pc, f);
  }

  lemma BroadcastMeasure<T>(s: State<T>, a: Action<T>)
    requires Can(s, a) && (a.BroadcastFull? || a.BroadcastEmpty?)
    ensures Measure(Apply(s, a)) < Measure(s)
  {
    var f := Weight<T>(|s.pcs|);
    if a.BroadcastFull? {
      WokenWeight(s.pcs, WakeAllProducers(s.pcs), a.g, WakeConsumers, f);
    } else {
      WokenWeight(s.pcs, WakeAllConsumers(s.pcs), a.g, Idle(Shut), f);
    }
  }

  lemma MeasureStep<T>(s: State<T>, a: Action<T>)
    requires Can(s, a) && !IsCall(a)
    ensures Measure(Apply(s, a)) < Measure(s)
  {
    if a.BroadcastFull? || a.BroadcastEmpty? {
      BroadcastMeasure(s, a);
    } else {
      SumsStep(s, a, Weight<T>(|s.pcs|));
    }
  }

  // ----------------------------------------------------------- main results

  /** Nobody can take a step: every goroutine is between calls or asleep. */
  predicate Settled<T>(s: State<T>) {
    forall g | 0 <= g < |s.pcs| :: s.pcs[g].Idle? || s.pcs[g].DeqAsleep? || s.pcs[g].EnqAsleep?
  }

  /** No lost wake-up: when nothing moves any more, consumers sleep only on an
      open empty queue and producers only on an open full one, so never both. */
  lemma NoLostWakeup<T>(s: State<T>, g: nat)
    requires Inv(s) && Settled(s) && g < |s.pcs|
    ensures s.pcs[g].DeqAsleep? ==> !s.closed && s.items == []
    ensures s.pcs[g].EnqAsleep? ==> !s.closed && |s.items| == s.capacity
  {
    SumConstant(s.pcs, 0, ConsumerWoken);
    SumConstant(s.pcs, 0, ProducerWoken);
  }

  /** Whoever is not asleep or idle can run, whatever the others do. */
  lemma Runnable<T>(s: State<T>, g: nat) returns (a: Action<T>)
    requires g < |s.pcs| && !s.pcs[g].Idle? && !s.pcs[g].DeqAsleep? && !s.pcs[g].EnqAsleep?
    ensures !IsCall(a) && a.g == g && Can(s, a)
  {
    var w := 0;
    if i :| 0 <= i < |s.pcs| && (if InEnqueue(s.pcs[g]) then s.pcs[i].DeqAsleep? else s.pcs[i].EnqAsleep?) {
      w := i;
    }
    a := match s.pcs[g]
      case EnqEnter(_) => Enqueue(g, w)
      case EnqWoken(_) => Enqueue(g, w)
      case DeqEnter => Dequeue(g, w)
      case DeqWoken => Dequeue(g, w)
      case CloseEnter => Close(g)
      case WakeProducers => BroadcastFull(g)
      case _ => BroadcastEmpty(g);
  }

  /** Over every interleaving of any calls: the queue is FIFO and bounded, and
      no wake-up is lost. */
  lemma EveryRun<T(!new)>(run: seq<State<T>>, i: nat)
    requires Runs.IsRun(Next<T>, run) && Init(run[0]) && i < |run|
    ensures Inv(run[i])
  {
    forall s: State<T>, t: State<T> | Inv(s) && Next(s, t)
      ensures Inv(t)
    {
      var a :| Can(s, a) && t == Apply(s, a);
      InvStep(s, a);
    }
    Runs.Always(Next<T>, Inv<T>, run);
  }

  /** Without new calls every schedule settles, and then whoever still sleeps
      has nothing to wait for but another call. After Close nobody sleeps. */
  lemma Settles<T(!new)>(run: seq<State<T>>)
    requires Runs.IsRun(Moves<T>, run) && Inv(run[0])
    ensures |run| <= Measure(run[0]) + 1
    ensures Runs.Complete(Moves<T>, run) ==>
      var s := Runs.Last(run);
      && Settled(s)
      && forall g | 0 <= g < |s.pcs| ::
        && (s.pcs[g].DeqAsleep? ==> !s.closed && s.items == [])
        && (s.pcs[g].EnqAsleep? ==> !s.closed && |s.items| == s.capacity)
  {
    forall s: State<T>, t: State<T> | Inv(s) && Moves(s, t)
      ensures Inv(t) && Measure(t) < Measure(s)
    {
      var a :| !IsCall(a) && Can(s, a) && t == Apply(s, a);
      InvStep(s, a);
      MeasureStep(s, a);
    }
    Runs.Bounded(Moves<T>, Inv<T>, Measure<T>, run);
    Runs.Always(Moves<T>, Inv<T>, run);
    var s := Runs.Last(run);
    if Runs.Complete(Moves<T>, run) {
      forall g | 0 <= g < |s.pcs|
        ensures s.pcs[g].Idle? || s.pcs[g].DeqAsleep? || s.pcs[g].EnqAsleep?
      {
        if !s.pcs[g].Idle? && !s.pcs[g].DeqAsleep? && !s.pcs[g].EnqAsleep? {
          var a := Runnable(s, g);
          assert Moves(s, Apply(s, a));
        }
      }
      forall g | 0 <= g < |s.pcs|
        ensures s.pcs[g].DeqAsleep? ==> !s.closed && s.items == []
        ensures s.pcs[g].EnqAsleep? ==> !s.closed && |s.items| == s.capacity
      {
        NoLostWakeup(s, g);
      }
    }
  }

  /** The k-th successful Dequeue returns the k-th accepted item; a Dequeue fails
      exactly on a closed queue from which every accepted item was removed. */
  lemma DequeueResult<T>(s: State<T>, a: Action<T>)
    requires Inv(s) && Can(s, a) && a.Dequeue? && Apply(s, a).pcs[a.g].Idle?
    ensures var last := Apply(s, a).pcs[a.g].last;
      && (last == ErrClosed <==> s.closed && s.removed == s.accepted)
      && (last != ErrClosed ==> |s.removed| < |s.accepted| && last == Took(s.accepted[|s.removed|]))
  {
  }

  /** An Enqueue in progress keeps its item, accepts it exactly when it returns
      without an error, and fails exactly on a closed queue. */
  lemma EnqueueStep<T>(s: State<T>, a: Action<T>)
    requires Can(s, a) && a.Enqueue?
    ensures var t, item := Apply(s, a), s.pcs[a.g].item;
      match t.pcs[a.g] {
        case EnqAsleep(x) => x == item && t.accepted == s.accepted
        case Idle(Accepted) => !s.closed && t.accepted == s.accepted + [item]
        case Idle(ErrClosed) => s.closed && t.accepted == s.accepted
        case _ => false
      }
  {
  }

  lemma OtherFrame<T>(s: State<T>, a: Action<T>, g: nat)
    requires Can(s, a) && a.g != g && g < |s.pcs|
    ensures |Apply(s, a).pcs| == |s.pcs|
    ensures var pc, pc' := s.pcs[g], Apply(s, a).pcs[g];
      pc' == pc || (pc.EnqAsleep? && pc' == EnqWoken(pc.item)) || (pc == DeqAsleep && pc' == DeqWoken)
  {
  }

  ghost predicate Steps<T>(s: State<T>, a: Action<T>, t: State<T>) {
    Can(s, a) && t == Apply(s, a)
  }

  /** What goroutine g's own steps have added to the accepted items. */
  function Added<T>(run: seq<State<T>>, acts: seq<Action<T>>, g: nat): seq<T>
    requires |run| == |acts| + 1
  {
    if acts == [] then []
    else
      var n := |acts| - 1;
      var before, after := run[n].accepted, run[n + 1].accepted;
      Added(run[..n + 1], acts[..n], g)
        + if acts[n].g == g && |before| <= |after| then after[|before|..] else []
  }

  /** One call of Enqueue(item) by g, which begins with the first action. */
  ghost predicate OneEnqueue<T(!new)>(run: seq<State<T>>, acts: seq<Action<T>>, g: nat, item: T) {
    && Runs.IsTrace(Steps<T>, run, acts)
    && acts != [] && acts[0] == CallEnqueue(g, item)
    && forall k | 0 < k < |acts| :: acts[k].g == g ==> !IsCall(acts[k])
  }

  /** Over every interleaving: while an Enqueue goes on it adds nothing; when it has
      returned nil it has added its item, once and nothing else, and when it has
      returned ErrClosed it has added nothing and the queue is closed. */
  lemma {:induction false} EnqueueResult<T(!new)>(run: seq<State<T>>, acts: seq<Action<T>>, g: nat, item: T)
    requires OneEnqueue(run, acts, g, item)
    ensures var s := Runs.Last(run);
      && g < |s.pcs|
      && if InEnqueue(s.pcs[g]) || s.pcs[g].EnqAsleep? then s.pcs[g].item == item && Added(run, acts, g) == []
         else if s.pcs[g] == Idle(Accepted) then Added(run, acts, g) == [item]
         else s.pcs[g] == Idle(ErrClosed) && s.closed && Added(run, acts, g) == []
    decreases |acts|
  {
    var n := |acts| - 1;
    Runs.Shorter(Steps<T>, run, acts);
    var s, a := run[n], acts[n];
    if n == 0 {
      assert run[..1] == [run[0]] && acts[..0] == [];
    } else {
      EnqueueResult(run[..n + 1], acts[..n], g, item);
      if a.g != g {
        OtherFrame(s, a, g);
      } else {
        EnqueueStep(s, a);
      }
    }
  }

  // ------------------------------------------------------ one pair of broadcasts

  function FullNext<T>(pc: Pc<T>): nat {
    if pc.WakeProducers? then 1 else 0
  }

  function EmptyNext<T>(pc: Pc<T>): nat {
    if pc.WakeConsumers? then 1 else 0
  }

  /** How often the two conditions have been broadcast to. */
  function Broadcasts<T>(acts: seq<Action<T>>): (nat, nat) {
    if acts == [] then (0, 0)
    else
      var (full, empty), a := Broadcasts(acts[..|acts| - 1]), acts[|acts| - 1];
      (if a.BroadcastFull? then full + 1 else full, if a.BroadcastEmpty? then empty + 1 else empty)
  }

  lemma {:induction false} WakingAll<T>(pcs: seq<Pc<T>>)
    ensures Sum(WakeAllProducers(pcs), FullNext<T>) == Sum(WakeAllConsumers(pcs), FullNext<T>) == Sum(pcs, FullNext<T>)
    ensures Sum(WakeAllProducers(pcs), EmptyNext<T>) == Sum(WakeAllConsumers(pcs), EmptyNext<T>)
      == Sum(pcs, EmptyNext<T>)
  {
    if pcs != [] {
      var n := |pcs| - 1;
      WakingAll(pcs[..n]);
      assert WakeAllProducers(pcs)[..n] == WakeAllProducers(pcs[..n]);
      assert WakeAllConsumers(pcs)[..n] == WakeAllConsumers(pcs[..n]);
    }
  }

  lemma SignalNext<T>(pcs: seq<Pc<T>>, w: nat)
    ensures Sum(SignalConsumer(pcs, w), FullNext<T>) == Sum(SignalProducer(pcs, w), FullNext<T>)
      == Sum(pcs, FullNext<T>)
    ensures Sum(SignalConsumer(pcs, w), EmptyNext<T>) == Sum(SignalProducer(pcs, w), EmptyNext<T>)
      == Sum(pcs, EmptyNext<T>)
  {
    if w < |pcs| && pcs[w].DeqAsleep? {
      SumUpdate(pcs, w, DeqWoken, FullNext<T>);
      SumUpdate(pcs, w, DeqWoken, EmptyNext<T>);
    } else if w < |pcs| && pcs[w].EnqAsleep? {
      SumUpdate(pcs, w, EnqWoken(pcs[w].item), FullNext<T>);
      SumUpdate(pcs, w, EnqWoken(pcs[w].item), EmptyNext<T>);
    }
  }

  /** The goroutines after the sleepers, if any, have been woken by a step. */
  function Notified<T>(s: State<T>, a: Action<T>): seq<Pc<T>>
    requires Can(s, a)
  {
    match a
    case Enqueue(_, w) => if !s.closed && |s.items| != s.capacity then SignalConsumer(s.pcs, w) else s.pcs
    case Dequeue(_, w) => if |s.items| != 0 then SignalProducer(s.pcs, w) else s.pcs
    case BroadcastFull(_) => WakeAllProducers(s.pcs)
    case BroadcastEmpty(_) => WakeAllConsumers(s.pcs)
    case _ => s.pcs
  }

  lemma NotifiedFrame<T>(s: State<T>, a: Action<T>)
    requires Can(s, a)
    ensures |Notified(s, a)| == |s.pcs| && Notified(s, a)[a.g] == s.pcs[a.g]
    ensures Apply(s, a).pcs == Notified(s, a)[a.g := Apply(s, a).pcs[a.g]]
  {
  }

  lemma NotifiedSums<T>(s: State<T>, a: Action<T>)
    requires Can(s, a)
    ensures Sum(Notified(s, a), FullNext<T>) == Sum(s.pcs, FullNext<T>)
    ensures Sum(Notified(s, a), EmptyNext<T>) == Sum(s.pcs, EmptyNext<T>)
  {
    if a.Enqueue? || a.Dequeue? {
      SignalNext(s.pcs, a.w);
    } else {
      WakingAll(s.pcs);
    }
  }

  /** Who begins to broadcast has just closed the queue. */
  lemma OwnNext<T>(s: State<T>, a: Action<T>)
    requires Can(s, a)
    ensures var t := Apply(s, a);
      && |t.pcs| == |s.pcs|
      && FullNext(t.pcs[a.g]) + (if a.BroadcastFull? then 1 else 0)
         == FullNext(s.pcs[a.g]) + (if t.closed && !s.closed then 1 else 0)
      && EmptyNext(t.pcs[a.g]) + (if a.BroadcastEmpty? then 1 else 0)
         == EmptyNext(s.pcs[a.g]) + (if a.BroadcastFull? then 1 else 0)
  {
  }

  /** What a step does to the goroutines that are about to broadcast. */
  lemma NextBroadcasts<T>(s: State<T>, a: Action<T>)
    requires Can(s, a)
    ensures var t := Apply(s, a);
      && Sum(t.pcs, FullNext<T>) + (if a.BroadcastFull? then 1 else 0)
         == Sum(s.pcs, FullNext<T>) + (if t.closed && !s.closed then 1 else 0)
      && Sum(t.pcs, EmptyNext<T>) + (if a.BroadcastEmpty? then 1 else 0)
         == Sum(s.pcs, EmptyNext<T>) + (if a.BroadcastFull? then 1 else 0)
  {
    NotifiedFrame(s, a);
    NotifiedSums(s, a);
    OwnNext(s, a);
    var pc := Apply(s, a).pcs[a.g];
    SumUpdate(Notified(s, a), a.g, pc, FullNext<T>);
    SumUpdate(Notified(s, a), a.g, pc, EmptyNext<T>);
  }

  lemma StaysClosed<T>(s: State<T>, a: Action<T>)
    requires Can(s, a)
    ensures s.closed ==> Apply(s, a).closed
  {
  }

  /** Over every interleaving of any number of Closes each condition is broadcast to
      at most once, and exactly once when no Close is under way any more. */
  lemma {:induction false} BroadcastOnce<T(!new)>(run: seq<State<T>>, acts: seq<Action<T>>)
    requires Runs.IsTrace(Steps<T>, run, acts) && Init(run[0])
    ensures var s, (full, empty) := Runs.Last(run), Broadcasts(acts);
      && full + Sum(s.pcs, FullNext<T>) == (if s.closed then 1 else 0)
      && empty + Sum(s.pcs, EmptyNext<T>) == full
  {
    if acts == [] {
      SumConstant(run[0].pcs, 0, FullNext<T>);
      SumConstant(run[0].pcs, 0, EmptyNext<T>);
    } else {
      var n := |acts| - 1;
      Runs.Shorter(Steps<T>, run, acts);
      BroadcastOnce(run[..|acts|], acts[..n]);
      NextBroadcasts(run[n], acts[n]);
      StaysClosed(run[n], acts[n]);
    }
  }

  /** Once closed, a queue accepts nothing more. */
  lemma NothingAfterClose<T(!new)>(s: State<T>, t: State<T>)
    requires Next(s, t) && s.closed
    ensures t.closed && t.accepted == s.accepted && |t.items| <= |s.items|
  {
  }

  // --------------------------------------------------------------- the queue

  /** The Go struct, with the goroutines that use it. `pcs` holds both wait sets. */
  class Queue<T> {
    const capacity: nat
    var items: seq<T>
    var closed: bool
    var pcs: seq<Pc<T>>
    ghost var accepted: seq<T>
    ghost var removed: seq<T>

    ghost function View(): State<T>
      reads this
    {
      State(capacity, items, closed, pcs, accepted, removed)
    }

    /** New, for a positive capacity; NewQueue checks the argument. */
    constructor (capacity: nat, goroutines: nat)
      requires capacity > 0
      ensures this.capacity == capacity && |pcs| == goroutines
      ensures Init(View()) && Inv(View())
    {
      this.capacity := capacity;
      items, closed, accepted, removed := [], false, [], [];
      pcs := seq(goroutines, _ => Idle(NoCall));
    }

    /** notEmpty.Signal(), waking w if w is a sleeping consumer. */
    method SignalNotEmpty(w: nat)
      modifies this`pcs
      ensures pcs == SignalConsumer(old(pcs), w)
    {
      if w < |pcs| && pcs[w].DeqAsleep? {
        pcs := pcs[w := DeqWoken];
      }
    }

    method SignalNotFull(w: nat)
      modifies this`pcs
      ensures pcs == SignalProducer(old(pcs), w)
    {
      if w < |pcs| && pcs[w].EnqAsleep? {
        pcs := pcs[w := EnqWoken(pcs[w].item)];
      }
    }

    /** The critical section of Enqueue (queue.go:63-75). */
    method EnqueueSection(g: nat, w: nat)
      requires Inv(View()) && Can(View(), Enqueue(g, w))
      modifies this
      ensures View() == Apply(old(View()), Enqueue(g, w)) && Inv(View())
    {
      InvStep(View(), Enqueue(g, w));
      var item := pcs[g].item;
      if |items| == capacity && !closed {
        pcs := pcs[g := EnqAsleep(item)];
        return;
      }
      if closed {
        pcs := pcs[g := Idle(ErrClosed)];
        return;
      }
      items := items + [item];
      accepted := accepted + [item];
      SignalNotEmpty(w);
      pcs := pcs[g := Idle(Accepted)];
    }

    /** The critical section of Dequeue (queue.go:88-102). */
    method DequeueSection(g: nat, w: nat)
      requires Inv(View()) && Can(View(), Dequeue(g, w))
      modifies this
      ensures View() == Apply(old(View()), Dequeue(g, w)) && Inv(View())
    {
      InvStep(View(), Dequeue(g, w));
      if |items| == 0 && !closed {
        pcs := pcs[g := DeqAsleep];
        return;
      }
      if |items| == 0 {
        pcs := pcs[g := Idle(ErrClosed)];
        return;
      }
      var item := items[0];
      items := items[1..];
      removed := removed + [item];
      SignalNotFull(w);
      pcs := pcs[g := Idle(Took(item))];
    }

    /** The critical section of Close (queue.go:114-121). */
    method CloseSection(g: nat)
      requires Inv(View()) && Can(View(), Action.Close(g))
      modifies this
      ensures View() == Apply(old(View()), Action.Close(g)) && Inv(View())
    {
      InvStep(View(), Action.Close(g));
      var alreadyClosed := closed;
      closed := true;
      if alreadyClosed {
        pcs := pcs[g := Idle(Shut)];
      } else {
        pcs := pcs[g := WakeProducers];
      }
    }

    /** The two broadcasts of Close: every member of the wait set is notified. */
    method Broadcast(g: nat)
      requires Inv(View()) && g < |pcs| && (pcs[g].WakeProducers? || pcs[g].WakeConsumers?)
      modifies this
      ensures View() == Apply(old(View()), if old(pcs[g]).WakeProducers? then BroadcastFull(g) else BroadcastEmpty(g))
      ensures Inv(View())
    {
      ghost var a := if pcs[g].WakeProducers? then BroadcastFull(g) else BroadcastEmpty(g);
      InvStep(View(), a);
      var producers := pcs[g].WakeProducers?;
      ghost var before := pcs;
      for i := 0 to |pcs|
        invariant |pcs| == |before|
        invariant forall k | 0 <= k < i ::
          pcs[k] == (if producers then WakeAllProducers(before) else WakeAllConsumers(before))[k]
        invariant forall k | i <= k < |pcs| :: pcs[k] == before[k]
        invariant items == old(items) && closed == old(closed) && accepted == old(accepted) && removed == old(removed)
      {
        if producers && pcs[i].EnqAsleep? {
          pcs := pcs[i := EnqWoken(pcs[i].item)];
        } else if !producers && pcs[i].DeqAsleep? {
          pcs := pcs[i := DeqWoken];
        }
      }
      assert pcs == if producers then WakeAllProducers(before) else WakeAllConsumers(before);
      pcs := pcs[g := if producers then WakeConsumers else Idle(Shut)];
    }

    /** One step of goroutine g, which is neither idle nor asleep. `w` is the
        scheduler's choice of the sleeper to be signalled. */
    method Step(g: nat, w: nat) returns (ghost a: Action<T>)
      requires Inv(View()) && g < |pcs| && !pcs[g].Idle? && !pcs[g].DeqAsleep? && !pcs[g].EnqAsleep?
      requires InEnqueue(pcs[g]) ==> SignalsConsumer(pcs, w)
      requires InDequeue(pcs[g]) ==> SignalsProducer(pcs, w)
      modifies this
      ensures !IsCall(a) && a.g == g && Can(old(View()), a)
      ensures View() == Apply(old(View()), a) && Inv(View())
    {
      match pcs[g] {
        case EnqEnter(_) => a := Enqueue(g, w); EnqueueSection(g, w);
        case EnqWoken(_) => a := Enqueue(g, w); EnqueueSection(g, w);
        case DeqEnter => a := Dequeue(g, w); DequeueSection(g, w);
        case DeqWoken => a := Dequeue(g, w); DequeueSection(g, w);
        case CloseEnter => a := Action.Close(g); CloseSection(g);
        case WakeProducers => a := BroadcastFull(g); Broadcast(g);
        case WakeConsumers => a := BroadcastEmpty(g); Broadcast(g);
      }
    }

    /** Lets an arbitrary scheduler run all calls under way until each has
        returned or sleeps; it always gets there, and nobody sleeps in vain. */
    method Settle()
      requires Inv(View())
      modifies this
      ensures Inv(View()) && Settled(View()) && |pcs| == old(|pcs|)
      ensures forall g | 0 <= g < |pcs| :: pcs[g].DeqAsleep? ==> !closed && items == []
      ensures forall g | 0 <= g < |pcs| :: pcs[g].EnqAsleep? ==> !closed && |items| == capacity
    {
      while exists g | 0 <= g < |pcs| :: !pcs[g].Idle? && !pcs[g].DeqAsleep? && !pcs[g].EnqAsleep?
        invariant Inv(View()) && |pcs| == old(|pcs|)
        decreases Measure(View())
      {
        var g :| 0 <= g < |pcs| && !pcs[g].Idle? && !pcs[g].DeqAsleep? && !pcs[g].EnqAsleep?;
        var w := PickSleeper(g);
        ghost var before := View();
        ghost var a := Step(g, w);
        MeasureStep(before, a);
      }
      forall g | 0 <= g < |pcs|
        ensures pcs[g].DeqAsleep? ==> !closed && items == []
        ensures pcs[g].EnqAsleep? ==> !closed && |items| == capacity
      {
        NoLostWakeup(View(), g);
      }
    }

    /** An arbitrary sleeper for g's signal, if there is one. */
    method PickSleeper(g: nat) returns (w: nat)
      requires g < |pcs|
      ensures InEnqueue(pcs[g]) ==> SignalsConsumer(pcs, w)
      ensures InDequeue(pcs[g]) ==> SignalsProducer(pcs, w)
    {
      w := 0;
      if InEnqueue(pcs[g]) && exists i | 0 <= i < |pcs| :: pcs[i].DeqAsleep? {
        w :| 0 <= w < |pcs| && pcs[w].DeqAsleep?;
      } else if InDequeue(pcs[g]) && exists i | 0 <= i < |pcs| :: pcs[i].EnqAsleep? {
        w :| 0 <= w < |pcs| && pcs[w].EnqAsleep?;
      }
    }
  }

  /** New (queue.go:39-52). */
  method NewQueue<T>(capacity: int, goroutines: nat) returns (q: Queue?<T>)
    ensures q == null <==> capacity <= 0
    ensures q != null ==> fresh(q) && q.capacity == capacity && Init(q.View())
  {
    q := null;
    if capacity > 0 {
      q := new Queue(capacity, goroutines);
    }
  }
}
