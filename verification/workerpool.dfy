/** examples/workerpool/pool.go: a batch of tasks, a dispatcher and a fixed number of
    workers.

    Steps are the dispatcher's test of the context, its rendezvous with a worker,
    one assignment of markUnscheduled, the close, the wait, and a worker's tests
    at the start of a task, the end of its call, and its leaving. Tasks
    return; what they return is given.
 */
module WorkerPool {
  import opened Sums
  import Runs

  /** A submitted task: nil, or one that returns error number `error` (0 for nil). */
  datatype Task = NilTask | Returns(error: nat)

  datatype Err = None | NilTaskError | Cancelled | TaskError(error: nat)

  /** A result slot. `Unset` still has the zero value it was created with. */
  datatype Slot = Unset | Ran(err: Err) | Unscheduled

  datatype Worker =
    | Idle
    | Taken(index: nat)      // received index, about to test the context
    | Running(index: nat)    // in the call of tasks[index]
    | Exited

  datatype Dispatcher =
    | Testing                // ctx.Err() at the loop head
    | Offering               // the select; jobs <- next
    | Marking(k: nat)        // markUnscheduled is about to write slot k
    | Closing                // close(jobs)
    | Joining                // wg.Wait()
    | Returned

  datatype State = State(
    tasks: seq<Task>,
    next: nat,               // the dispatcher's loop variable
    dispatcher: Dispatcher,
    runErr: bool,
    closed: bool,
    workers: seq<Worker>,
    slots: seq<Slot>,
    cancelled: bool)

  datatype Action =
    | Test
    | Offer(w: nat)
    | OfferCancelled
    | Mark
    | CloseJobs
    | Join
    | Begin(w: nat)
    | Finish(w: nat)
    | Leave(w: nat)
    | Cancel

  /** What a task that is called, or would be if it were not nil, comes to. */
  function Own(task: Task): Err {
    if task.NilTask? then NilTaskError
    else if task.error == 0 then None
    else TaskError(task.error)
  }

  predicate Shaped(s: State) {
    |s.slots| == |s.tasks| && s.next <= |s.tasks|
  }

  predicate Can(s: State, a: Action) {
    && Shaped(s)
    && match a
       case Test => s.dispatcher.Testing?
       case Offer(w) => s.dispatcher.Offering? && s.next < |s.tasks| && w < |s.workers| && s.workers[w].Idle?
       case OfferCancelled => s.dispatcher.Offering? && s.cancelled
       case Mark => s.dispatcher.Marking? && s.dispatcher.k <= |s.tasks|
       case CloseJobs => s.dispatcher.Closing?
       case Join => s.dispatcher.Joining? && forall w | 0 <= w < |s.workers| :: s.workers[w].Exited?
       case Begin(w) => w < |s.workers| && s.workers[w].Taken? && s.workers[w].index < |s.tasks|
       case Finish(w) => w < |s.workers| && s.workers[w].Running? && s.workers[w].index < |s.tasks|
       case Leave(w) => w < |s.workers| && s.workers[w].Idle? && s.closed
       case Cancel => !s.cancelled
  }

  function Apply(s: State, a: Action): State
    requires Can(s, a)
  {
    match a
    case Test =>
      if s.next == |s.tasks| then s.(dispatcher := Closing)
      else if s.cancelled then s.(dispatcher := Marking(s.next), runErr := true)
      else s.(dispatcher := Offering)
    case Offer(w) => s.(dispatcher := Testing, next := s.next + 1, workers := s.workers[w := Taken(s.next)])
    case OfferCancelled => s.(dispatcher := Marking(s.next), runErr := true)
    case Mark =>
      var k := s.dispatcher.k;
      if k == |s.tasks| then s.(dispatcher := Closing)
      else s.(dispatcher := Marking(k + 1), slots := s.slots[k := Unscheduled])
    case CloseJobs => s.(dispatcher := Joining, closed := true)
    case Join => s.(dispatcher := Returned)
    case Begin(w) =>
      var i := s.workers[w].index;
      if s.cancelled then s.(workers := s.workers[w := Idle], slots := s.slots[i := Ran(Cancelled)])
      else if s.tasks[i].NilTask? then s.(workers := s.workers[w := Idle], slots := s.slots[i := Ran(NilTaskError)])
      else s.(workers := s.workers[w := Running(i)])
    case Finish(w) =>
      var i := s.workers[w].index;
      s.(workers := s.workers[w := Idle], slots := s.slots[i := Ran(Own(s.tasks[i]))])
    case Leave(w) => s.(workers := s.workers[w := Exited])
    case Cancel => s.(cancelled := true)
  }

  ghost predicate Next(s: State, t: State) {
    exists a :: Can(s, a) && t == Apply(s, a)
  }

  /** A step of one of the goroutines: everything but the cancellation. */
  ghost predicate Moves(s: State, t: State) {
    exists a :: a != Cancel && Can(s, a) && t == Apply(s, a)
  }

  /** Run after its early returns (pool.go:45-67). */
  ghost predicate Init(s: State) {
    && Shaped(s) && s.next == 0 && s.dispatcher.Testing? && !s.runErr && !s.closed
    && (forall i | 0 <= i < |s.slots| :: s.slots[i] == Unset)
    && |s.workers| > 0 && (forall w | 0 <= w < |s.workers| :: s.workers[w] == Idle)
  }

  // -------------------------------------------------------------- invariant

  function On(i: nat): Worker -> nat {
    (w: Worker) => if w == Taken(i) || w == Running(i) then 1 else 0
  }

  /** How far markUnscheduled has come. */
  function Marked(s: State): nat {
    match s.dispatcher
    case Marking(k) => k
    case Testing => s.next
    case Offering => s.next
    case _ => if s.runErr then |s.tasks| else s.next
  }

  /** A result is that of its own task, or a cancellation that the worker noticed. */
  ghost predicate ErrOk(s: State, i: nat)
    requires Shaped(s) && i < |s.slots|
  {
    s.slots[i].Ran? ==> s.slots[i].err == Own(s.tasks[i]) || (s.slots[i].err == Cancelled && s.cancelled)
  }

  /** A dispatched slot is either being computed by one worker or written by it;
      one not dispatched is untouched by workers, and marked up to a point. */
  ghost predicate SlotOk(s: State, i: nat)
    requires Shaped(s) && i < |s.slots|
  {
    ErrOk(s, i) &&
    if i < s.next then
      Sum(s.workers, On(i)) == (if s.slots[i].Ran? then 0 else 1) && !s.slots[i].Unscheduled?
    else
      Sum(s.workers, On(i)) == 0 && s.slots[i] == if i < Marked(s) then Unscheduled else Unset
  }

  ghost predicate Control(s: State) {
    && Shaped(s)
    && |s.workers| > 0
    && (s.dispatcher.Offering? ==> s.next < |s.tasks|)
    && (s.dispatcher.Marking? ==> s.next <= s.dispatcher.k <= |s.tasks|)
    && (s.runErr <==> s.next < |s.tasks| && !s.dispatcher.Testing? && !s.dispatcher.Offering?)
    && (s.runErr ==> s.cancelled)
    && (s.dispatcher.Marking? ==> s.runErr)
    && (s.closed <==> s.dispatcher.Joining? || s.dispatcher.Returned?)
    && (forall w | 0 <= w < |s.workers| :: s.workers[w].Taken? || s.workers[w].Running? ==> s.workers[w].index < s.next)
    && (forall w | 0 <= w < |s.workers| :: s.workers[w].Running? ==> !s.tasks[s.workers[w].index].NilTask?)
    && (forall w | 0 <= w < |s.workers| :: s.workers[w].Exited? ==> s.closed)
    && (s.dispatcher.Returned? ==> forall w | 0 <= w < |s.workers| :: s.workers[w].Exited?)
  }

  ghost predicate Inv(s: State) {
    Control(s) && forall i | 0 <= i < |s.slots| :: SlotOk(s, i)
  }

  lemma InvInit(s: State)
    requires Init(s)
    ensures Inv(s)
  {
    forall i | 0 <= i < |s.slots|
      ensures SlotOk(s, i)
    {
      SumConstant(s.workers, 0, On(i));
    }
  }

  predicate ByWorker(a: Action) {
    a.Begin? || a.Finish? || a.Leave?
  }

  /** What a worker does to itself and to slot i. */
  lemma WorkerFrame(s: State, a: Action, i: nat)
    requires Can(s, a) && ByWorker(a) && i < |s.slots|
    ensures var t, pc := Apply(s, a), s.workers[a.w];
      && |t.workers| == |s.workers| && t.workers == s.workers[a.w := t.workers[a.w]]
      && t.dispatcher == s.dispatcher && t.next == s.next && t.runErr == s.runErr && t.tasks == s.tasks
      && t.cancelled == s.cancelled && |t.slots| == |s.slots|
      && (t.slots[i] != s.slots[i] ==>
            && !a.Leave? && pc.index == i && On(i)(t.workers[a.w]) == 0
            && (t.slots[i] == Ran(Own(s.tasks[i])) || (t.slots[i] == Ran(Cancelled) && s.cancelled)))
      && (t.slots[i] == s.slots[i] ==>
            On(i)(t.workers[a.w]) == On(i)(pc) || (!a.Leave? && pc.index == i && s.slots[i].Ran?))
  {
  }

  /** A worker's step changes at most its own slot, from unset to a result. */
  lemma WorkerSlot(s: State, a: Action, i: nat)
    requires Inv(s) && Can(s, a) && ByWorker(a) && i < |s.slots|
    ensures Shaped(Apply(s, a)) && i < |Apply(s, a).slots| && SlotOk(Apply(s, a), i)
  {
    assert SlotOk(s, i);
    WorkerFrame(s, a, i);
    SumUpdate(s.workers, a.w, Apply(s, a).workers[a.w], On(i));
    SumAtLeast(s.workers, a.w, On(i));
  }

  lemma DispatcherSlot(s: State, a: Action, i: nat)
    requires Inv(s) && Can(s, a) && !ByWorker(a) && i < |s.slots|
    ensures Shaped(Apply(s, a)) && i < |Apply(s, a).slots| && SlotOk(Apply(s, a), i)
  {
    assert SlotOk(s, i);
    if a.Offer? {
      SumUpdate(s.workers, a.w, Taken(s.next), On(i));
    }
  }

  lemma SlotStep(s: State, a: Action, i: nat)
    requires Inv(s) && Can(s, a) && i < |s.slots|
    ensures Shaped(Apply(s, a)) && i < |Apply(s, a).slots| && SlotOk(Apply(s, a), i)
  {
    if ByWorker(a) {
      WorkerSlot(s, a, i);
    } else {
      DispatcherSlot(s, a, i);
    }
  }

  lemma InvStep(s: State, a: Action)
    requires Inv(s) && Can(s, a)
    ensures Inv(Apply(s, a))
  {
    var t := Apply(s, a);
    forall i | 0 <= i < |t.slots|
      ensures SlotOk(t, i)
    {
      SlotStep(s, a, i);
    }
  }

  /** Each slot is written at most once, and never by two goroutines: whoever
      writes a slot finds it unset, and the dispatcher writes only slots that no
      worker has or will get. */
  lemma WritesOnce(s: State, a: Action)
    requires Inv(s) && Can(s, a)
    ensures a.Begin? || a.Finish? ==> s.slots[s.workers[a.w].index] == Unset
    ensures a.Mark? && s.dispatcher.k < |s.tasks| ==>
      && s.slots[s.dispatcher.k] == Unset
      && forall w | 0 <= w < |s.workers| ::
           s.workers[w] != Taken(s.dispatcher.k) && s.workers[w] != Running(s.dispatcher.k)
    ensures forall i | 0 <= i < |s.slots| && s.slots[i] != Unset :: Apply(s, a).slots[i] == s.slots[i]
  {
    if a.Begin? || a.Finish? {
      var i := s.workers[a.w].index;
      assert SlotOk(s, i);
      SumAtLeast(s.workers, a.w, On(i));
    } else if a.Mark? && s.dispatcher.k < |s.tasks| {
      assert SlotOk(s, s.dispatcher.k);
    }
  }

  // ------------------------------------------------------------ termination

  function Work(w: Worker): nat {
    match w
    case Exited => 0
    case Idle => 1
    case Running(_) => 2
    case Taken(_) => 3
  }

  function Rest(s: State): nat {
    match s.dispatcher
    case Testing => if s.next <= |s.tasks| then 4 * (|s.tasks| - s.next) + 5 else 0
    case Offering => if s.next <= |s.tasks| then 4 * (|s.tasks| - s.next) + 4 else 0
    case Marking(k) => if k <= |s.tasks| then |s.tasks| - k + 3 else 0
    case Closing => 2
    case Joining => 1
    case Returned => 0
  }

  function Measure(s: State): nat {
    Rest(s) + Sum(s.workers, Work) + if s.cancelled then 0 else 1
  }

  lemma WorkerMeasure(s: State, a: Action)
    requires Inv(s) && Can(s, a) && ByWorker(a)
    ensures Measure(Apply(s, a)) < Measure(s)
  {
    SumUpdate(s.workers, a.w, Apply(s, a).workers[a.w], Work);
  }

  lemma MeasureStep(s: State, a: Action)
    requires Inv(s) && Can(s, a)
    ensures Measure(Apply(s, a)) < Measure(s)
  {
    if ByWorker(a) {
      WorkerMeasure(s, a);
    } else if a.Offer? {
      SumUpdate(s.workers, a.w, Taken(s.next), Work);
    }
  }

  lemma NextStep(s: State, t: State)
    requires Inv(s) && Next(s, t)
    ensures Inv(t) && Measure(t) < Measure(s)
  {
    var a :| Can(s, a) && t == Apply(s, a);
    InvStep(s, a);
    MeasureStep(s, a);
  }

  /** Until Run has returned some goroutine can take a step, cancelled or not. */
  lemma Progress(s: State) returns (a: Action)
    requires Inv(s) && !s.dispatcher.Returned?
    ensures a != Cancel && a != OfferCancelled && Can(s, a)
  {
    if w :| 0 <= w < |s.workers| && s.workers[w].Running? {
      a := Finish(w);
    } else if w :| 0 <= w < |s.workers| && s.workers[w].Taken? {
      a := Begin(w);
    } else {
      match s.dispatcher {
        case Testing => a := Test;
        case Offering => assert s.workers[0].Idle?; a := Offer(0);
        case Marking(_) => a := Mark;
        case Closing => a := CloseJobs;
        case Joining =>
          if w :| 0 <= w < |s.workers| && s.workers[w].Idle? {
            a := Leave(w);
          } else {
            a := Join;
          }
      }
    }
  }

  // ------------------------------------------------------------ main results

  function Busy(w: Worker): nat {
    if w.Taken? || w.Running? then 1 else 0
  }

  lemma SameTeam(s: State, a: Action)
    requires Can(s, a)
    ensures |Apply(s, a).workers| == |s.workers|
  {
  }

  /** Never more tasks at once than there are workers. */
  lemma AtMostWorkers(run: seq<State>, i: nat)
    requires Runs.IsRun(Next, run) && i < |run|
    ensures |run[i].workers| == |run[0].workers| && Sum(run[i].workers, Busy) <= |run[0].workers|
  {
    var n := |run[0].workers|;
    var same := (s: State) => |s.workers| == n;
    forall s, t | same(s) && Next(s, t)
      ensures same(t)
    {
      var a :| Can(s, a) && t == Apply(s, a);
      SameTeam(s, a);
    }
    Runs.Always(Next, same, run);
    assert same(run[i]);
    SumBounded(run[i].workers, Busy);
  }

  /** What Run returns: the tasks that were dispatched are a prefix, each has its
      own result, or that of the cancellation if a worker noticed one; the others
      are marked as not scheduled; and there is an error if and only if there are
      others, which takes a cancellation. */
  lemma Outcome(s: State)
    requires Inv(s) && s.dispatcher.Returned?
    ensures forall i | 0 <= i < |s.slots| :: if i < s.next then s.slots[i].Ran? else s.slots[i] == Unscheduled
    ensures forall i | 0 <= i < s.next ::
      s.slots[i] == Ran(Own(s.tasks[i])) || (s.slots[i] == Ran(Cancelled) && s.cancelled)
    ensures s.runErr <==> s.next < |s.tasks|
    ensures s.runErr ==> s.cancelled
  {
    forall i | 0 <= i < |s.slots|
      ensures if i < s.next then s.slots[i].Ran? else s.slots[i] == Unscheduled
      ensures ErrOk(s, i)
    {
      assert SlotOk(s, i);
      SumConstant(s.workers, 0, On(i));
    }
  }

  /** What a worker's call of runTask comes to: the cancellation if the context is done
      when it begins, an error if the task is nil, and otherwise, however late the
      cancellation, what the task returns. */
  lemma TaskOutcome(s: State, a: Action)
    requires Inv(s) && Can(s, a) && (a.Begin? || a.Finish?)
    ensures var t, i := Apply(s, a), s.workers[a.w].index;
      && i < |s.slots| == |t.slots|
      && (t.slots[i] == Ran(Cancelled) <==> a.Begin? && s.cancelled)
      && (t.slots[i] == Ran(NilTaskError) <==> a.Begin? && !s.cancelled && s.tasks[i].NilTask?)
      && (t.slots[i] == Unset <==> a.Begin? && !s.cancelled && !s.tasks[i].NilTask?)
      && (t.slots[i] == Unset <==> t.workers[a.w] == Running(i))
      && (a.Finish? ==> t.slots[i] == Ran(Own(s.tasks[i])))
  {
    WritesOnce(s, a);
  }

  /** A worker that has called task i is still in the call or has left in slot i what
      the task returned. */
  ghost predicate CallKept(s: State, tasks: seq<Task>, w: nat, i: nat) {
    && Inv(s) && s.tasks == tasks && w < |s.workers| && i < |tasks|
    && (s.workers[w] == Running(i) || s.slots[i] == Ran(Own(tasks[i])))
  }

  lemma CallKeptStep(s: State, a: Action, w: nat, i: nat)
    requires CallKept(s, s.tasks, w, i) && Can(s, a)
    ensures CallKept(Apply(s, a), s.tasks, w, i)
  {
    InvStep(s, a);
    WritesOnce(s, a);
    SameTeam(s, a);
  }

  /** Over every interleaving the result of a task that was called is kept, whatever
      is cancelled before or after the task returns. */
  lemma CalledIsKept(run: seq<State>, j: nat, n: nat, w: nat, i: nat)
    requires Runs.IsRun(Next, run) && Init(run[0]) && j <= n < |run|
    requires w < |run[j].workers| && run[j].workers[w] == Running(i)
    ensures w < |run[n].workers| && i < |run[n].slots| == |run[n].tasks|
    ensures run[n].workers[w] == Running(i) || run[n].slots[i] == Ran(Own(run[n].tasks[i]))
  {
    InvInit(run[0]);
    forall s, t | Inv(s) && Next(s, t)
      ensures Inv(t)
    {
      NextStep(s, t);
    }
    Runs.Always(Next, Inv, run);
    var tasks := run[j].tasks;
    var kept := (s: State) => CallKept(s, tasks, w, i);
    forall s, t | kept(s) && Next(s, t)
      ensures kept(t)
    {
      var a :| Can(s, a) && t == Apply(s, a);
      CallKeptStep(s, a, w, i);
    }
    assert Runs.IsRun(Next, run[j..]);
    Runs.Always(Next, kept, run[j..]);
    assert kept(run[j..][n - j]);
  }

  /** Every schedule is finite and one that cannot be continued has returned. */
  lemma EveryRun(run: seq<State>)
    requires Runs.IsRun(Next, run) && Init(run[0])
    ensures |run| <= Measure(run[0]) + 1
    ensures Inv(Runs.Last(run))
    ensures Runs.Complete(Moves, run) ==> Runs.Last(run).dispatcher.Returned?
  {
    InvInit(run[0]);
    forall s, t | Inv(s) && Next(s, t)
      ensures Inv(t) && Measure(t) < Measure(s)
    {
      NextStep(s, t);
    }
    Runs.Bounded(Next, Inv, Measure, run);
    Runs.Always(Next, Inv, run);
    var s := Runs.Last(run);
    if !s.dispatcher.Returned? {
      var a := Progress(s);
      assert Moves(s, Apply(s, a));
    }
  }

  // ---------------------------------------------------------------- the pool

  datatype Result = Result(index: nat, slot: Slot)

  datatype RunError = NoError | BadWorkers | ContextCancelled

  class Batch {
    const tasks: seq<Task>
    const results: array<Slot>
    var next: nat
    var dispatcher: Dispatcher
    var runErr: bool
    var closed: bool
    var workers: seq<Worker>
    var cancelled: bool

    ghost function View(): State
      reads this, results
    {
      State(tasks, next, dispatcher, runErr, closed, workers, results[..], cancelled)
    }

    constructor (tasks: seq<Task>, n: nat, cancelled: bool)
      requires n > 0
      ensures fresh(results) && this.tasks == tasks && |workers| == n && this.cancelled == cancelled
      ensures Init(View()) && Inv(View())
    {
      this.tasks := tasks;
      results := new Slot[|tasks|](_ => Unset);
      next, dispatcher, runErr, closed, this.cancelled := 0, Testing, false, false, cancelled;
      workers := seq(n, _ => Idle);
      new;
      InvInit(View());
    }

    /** The dispatcher's loop head and select (pool.go:69-84). */
    method DispatchStep(w: nat, cancel: bool) returns (ghost a: Action)
      requires Shaped(View()) && (dispatcher.Testing? || dispatcher.Offering?)
      requires dispatcher.Offering? ==> next < |tasks| && (cancelled || (w < |workers| && workers[w].Idle?))
      modifies this
      ensures a != Cancel && Can(old(View()), a) && View() == Apply(old(View()), a)
    {
      if dispatcher.Testing? {
        a := Test;
        if next == |tasks| {
          dispatcher := Closing;
        } else if cancelled {
          runErr := true;
          dispatcher := Marking(next);
        } else {
          dispatcher := Offering;
        }
      } else if w < |workers| && workers[w].Idle? && (!cancel || !cancelled) {
        a := Offer(w);
        workers := workers[w := Taken(next)];
        next := next + 1;
        dispatcher := Testing;
      } else {
        a := OfferCancelled;
        runErr := true;
        dispatcher := Marking(next);
      }
    }

    /** One iteration of markUnscheduled (pool.go:103-107). */
    method MarkStep()
      requires Can(View(), Mark)
      modifies this, results
      ensures View() == Apply(old(View()), Mark)
    {
      var i := dispatcher.k;
      if i < results.Length {
        results[i] := Unscheduled;
        dispatcher := Marking(i + 1);
      } else {
        dispatcher := Closing;
      }
    }

    /** close(jobs), and wg.Wait() returning (pool.go:87-89). */
    method EndStep() returns (ghost a: Action)
      requires Can(View(), CloseJobs) || Can(View(), Join)
      modifies this
      ensures a != Cancel && Can(old(View()), a) && View() == Apply(old(View()), a)
    {
      if dispatcher.Closing? {
        a := CloseJobs;
        closed := true;
        dispatcher := Joining;
      } else {
        a := Join;
        dispatcher := Returned;
      }
    }

    /** A worker's loop (pool.go:62-64) apart from its receive, with runTask (:92-101). */
    method WorkerStep(w: nat) returns (ghost a: Action)
      requires Can(View(), Begin(w)) || Can(View(), Finish(w)) || Can(View(), Leave(w))
      modifies this, results
      ensures a != Cancel && Can(old(View()), a) && View() == Apply(old(View()), a)
    {
      if workers[w].Taken? {
        a := Begin(w);
        var index := workers[w].index;
        if cancelled || tasks[index].NilTask? {
          results[index] := Ran(if cancelled then Cancelled else NilTaskError);
          workers := workers[w := Idle];
        } else {
          workers := workers[w := Running(index)];
        }
      } else if workers[w].Running? {
        a := Finish(w);
        var index := workers[w].index;
        results[index] := Ran(Own(tasks[index]));
        workers := workers[w := Idle];
      } else {
        a := Leave(w);
        workers := workers[w := Exited];
      }
    }

    predicate WorkerReady(w: nat)
      requires w < |workers|
      reads this
    {
      ((workers[w].Taken? || workers[w].Running?) && workers[w].index < |tasks|) || (workers[w].Idle? && closed)
    }

    predicate DispatcherReady()
      reads this
    {
      match dispatcher
      case Offering => cancelled || exists w | 0 <= w < |workers| :: workers[w].Idle?
      case Joining => forall w | 0 <= w < |workers| :: workers[w].Exited?
      case Returned => false
      case _ => true
    }

    lemma SomeoneReady()
      requires Inv(View()) && !dispatcher.Returned?
      ensures DispatcherReady() || exists w | 0 <= w < |workers| :: WorkerReady(w)
    {
      var a := Progress(View());
      if a.Begin? || a.Finish? || a.Leave? {
        assert WorkerReady(a.w);
      } else if a.Offer? {
        assert workers[a.w].Idle?;
      }
    }

    method DispatcherTurn(cancel: bool) returns (ghost a: Action)
      requires Inv(View()) && DispatcherReady()
      modifies this, results
      ensures a != Cancel && Can(old(View()), a) && View() == Apply(old(View()), a)
    {
      if dispatcher.Testing? || dispatcher.Offering? {
        var w: nat := 0;
        if exists v | 0 <= v < |workers| :: workers[v].Idle? {
          w :| 0 <= w < |workers| && workers[w].Idle?;
        }
        a := DispatchStep(w, cancel);
      } else if dispatcher.Marking? {
        a := Mark;
        MarkStep();
      } else {
        a := EndStep();
      }
    }

    /** One turn of an arbitrary scheduler. */
    method Turn(interrupt: bool, dispatcherFirst: bool, cancel: bool)
      requires Inv(View()) && !dispatcher.Returned?
      modifies this, results
      ensures Next(old(View()), View()) && (old(cancelled) ==> cancelled)
    {
      SomeoneReady();
      ghost var a;
      if interrupt && !cancelled {
        a := Cancel;
        cancelled := true;
      } else if DispatcherReady() && (dispatcherFirst || forall w | 0 <= w < |workers| :: !WorkerReady(w)) {
        a := DispatcherTurn(cancel);
      } else {
        var w :| 0 <= w < |workers| && WorkerReady(w);
        a := WorkerStep(w);
      }
      assert Can(old(View()), a);
    }
  }

  /** Runs the batch to its end and hands back the schedule that was followed. */
  method Serve(b: Batch) returns (ghost run: seq<State>)
    requires Inv(b.View())
    modifies b, b.results
    ensures Inv(b.View()) && b.dispatcher.Returned?
    ensures old(b.cancelled) ==> b.cancelled
    ensures Runs.IsRun(Next, run) && run[0] == old(b.View()) && Runs.Last(run) == b.View()
  {
    run := [b.View()];
    while !b.dispatcher.Returned?
      invariant Inv(b.View()) && (old(b.cancelled) ==> b.cancelled)
      invariant Runs.IsRun(Next, run) && run[0] == old(b.View()) && Runs.Last(run) == b.View()
      decreases Measure(b.View())
    {
      ghost var before := b.View();
      var interrupt: bool, dispatcherFirst: bool, cancel: bool := *, *, *;
      b.Turn(interrupt, dispatcherFirst, cancel);
      NextStep(before, b.View());
      Runs.Extend(Next, run, b.View());
      run := run + [b.View()];
    }
  }

  /** `Run` (pool.go:37-90) under an arbitrary scheduler and cancellation: one
      result per task, for a prefix of the tasks what each said, or the cancelled
      context said, for the rest a mark; no error exactly if all were dispatched;
      if the context was not cancelled by the end, every task's own result; and
      never more than `workers` tasks at once. */
  method Run(workers: int, tasks: seq<Task>, cancelledBefore: bool)
    returns (results: seq<Result>, err: RunError, ghost dispatched: nat, cancelled: bool, ghost run: seq<State>)
    ensures workers <= 0 ==> err == BadWorkers && results == []
    ensures workers > 0 ==> |results| == |tasks| && dispatched <= |tasks| && err != BadWorkers
    ensures workers > 0 ==> forall i | 0 <= i < |results| ::
      && results[i].index == i
      && (i < dispatched ==>
            results[i].slot == Ran(Own(tasks[i])) || (cancelled && results[i].slot == Ran(Cancelled)))
      && (i >= dispatched ==> results[i].slot == Unscheduled)
    ensures workers > 0 ==> (err == NoError <==> dispatched == |tasks|)
    ensures err == ContextCancelled ==> cancelled
    ensures cancelledBefore ==> cancelled
    ensures workers > 0 && tasks != [] ==>
      && Runs.IsRun(Next, run) && Init(run[0]) && run[0].tasks == tasks && run[0].cancelled == cancelledBefore
      && Runs.Last(run).dispatcher.Returned?
      && dispatched == Runs.Last(run).next && cancelled == Runs.Last(run).cancelled
      && |Runs.Last(run).slots| == |tasks|
      && forall i | 0 <= i < |tasks| :: results[i].slot == Runs.Last(run).slots[i]
    ensures forall i | 0 <= i < |run| :: Sum(run[i].workers, Busy) <= workers
  {
    results, dispatched, cancelled, run := [], 0, cancelledBefore, [];
    if workers <= 0 {
      return results, BadWorkers, dispatched, cancelled, run;
    }
    if |tasks| == 0 {
      return results, NoError, dispatched, cancelled, run;
    }
    var n := if workers > |tasks| then |tasks| else workers;
    var b := new Batch(tasks, n, cancelledBefore);
    run := Serve(b);
    forall i | 0 <= i < |run|
      ensures Sum(run[i].workers, Busy) <= workers
    {
      AtMostWorkers(run, i);
    }
    Outcome(b.View());
    var slots := b.results[..];
    results := seq(|slots|, i requires 0 <= i < |slots| => Result(i, slots[i]));
    dispatched, cancelled := b.next, b.cancelled;
    err := if b.runErr then ContextCancelled else NoError;
  }
}
