/** examples/diningphilosophers/table.go: N philosophers, N forks, N - 1 seats.

    The state machine has one step per atomic operation: a select on the seat
    channel, a Lock or Unlock of a fork, the increment of the caller's Result.
    Class Table holds the shared variables in the form the Go code has them and
    performs the same steps in place; Run drives it with an arbitrary schedule.
 */
module DiningPhilosophers {
  import opened Sums
  import Runs

  datatype Result = Result(philosopher: nat, rounds: nat)

  /** Where a philosopher's goroutine stands inside `dine`. */
  datatype Pc =
    | Sitting                  // about to select in sit
    | WantLeft                 // about to lock the left fork
    | WantRight                // holds the left fork, about to lock the right one
    | Eating                   // holds both forks, about to count the round
    | DropRight                // round counted, about to unlock the right fork
    | DropLeft                 // about to unlock the left fork
    | Leaving                  // about to receive from the seat channel
    | Finished(failed: bool)   // returned; failed means a cancellation error

  /** A goroutine: its position and the loop counter of `dine`. */
  datatype Phil = Phil(pc: Pc, iter: nat)

  datatype State = State(
    rounds: nat,
    phils: seq<Phil>,
    forks: seq<bool>,      // true while the mutex is locked
    seats: nat,            // tokens in the seat channel
    results: seq<Result>,
    cancelled: bool)

  datatype Action =
    | Sit(p: nat)
    | SitCancelled(p: nat)
    | LockLeft(p: nat)
    | LockRight(p: nat)
    | Eat(p: nat)
    | UnlockRight(p: nat)
    | UnlockLeft(p: nat)
    | Leave(p: nat)
    | Cancel

  function Right(p: nat, n: nat): nat
    requires p < n
  {
    if p + 1 == n then 0 else p + 1
  }

  /** The index computed in table.go:79. */
  lemma RightIsMod(p: nat, n: nat)
    requires p < n
    ensures Right(p, n) == (p + 1) % n
  {
  }

  function Prev(p: nat, n: nat): nat
    requires p < n
  {
    if p == 0 then n - 1 else p - 1
  }

  predicate At(s: State, p: nat, pc: Pc) {
    p < |s.phils| && s.phils[p].pc == pc
  }

  /** Which steps can be taken: a blocked Lock, send or receive cannot. */
  predicate Can(s: State, a: Action)
    requires Shape(s)
  {
    match a
    case Sit(p) => At(s, p, Sitting) && s.seats < |s.phils| - 1
    case SitCancelled(p) => At(s, p, Sitting) && s.cancelled
    case LockLeft(p) => At(s, p, WantLeft) && !s.forks[p]
    case LockRight(p) => At(s, p, WantRight) && !s.forks[Right(p, |s.phils|)]
    case Eat(p) => At(s, p, Eating)
    case UnlockRight(p) => At(s, p, DropRight)
    case UnlockLeft(p) => At(s, p, DropLeft)
    case Leave(p) => At(s, p, Leaving) && s.seats > 0
    case Cancel => !s.cancelled
  }

  function Goto(s: State, p: nat, pc: Pc): State
    requires p < |s.phils|
  {
    s.(phils := s.phils[p := s.phils[p].(pc := pc)])
  }

  function Apply(s: State, a: Action): State
    requires Shape(s) && Can(s, a)
  {
    match a
    case Sit(p) => Goto(s, p, WantLeft).(seats := s.seats + 1)
    case SitCancelled(p) => Goto(s, p, Finished(true))
    case LockLeft(p) => Goto(s, p, WantRight).(forks := s.forks[p := true])
    case LockRight(p) => Goto(s, p, Eating).(forks := s.forks[Right(p, |s.phils|) := true])
    case Eat(p) => Goto(s, p, DropRight).(results := s.results[p := s.results[p].(rounds := s.results[p].rounds + 1)])
    case UnlockRight(p) => Goto(s, p, DropLeft).(forks := s.forks[Right(p, |s.phils|) := false])
    case UnlockLeft(p) => Goto(s, p, Leaving).(forks := s.forks[p := false])
    case Leave(p) =>
      var i := s.phils[p].iter + 1;
      s.(phils := s.phils[p := Phil(if i < s.rounds then Sitting else Finished(false), i)], seats := s.seats - 1)
    case Cancel => s.(cancelled := true)
  }

  ghost predicate Next(s: State, t: State) {
    Shape(s) && exists a :: Can(s, a) && t == Apply(s, a)
  }

  /** A step of one of the goroutines: everything but the cancellation. */
  ghost predicate Moves(s: State, t: State) {
    Shape(s) && exists a :: a != Cancel && Can(s, a) && t == Apply(s, a)
  }

  /** The state in which Run starts its goroutines (table.go:44-63). */
  ghost predicate Init(s: State) {
    && Shape(s)
    && s.seats == 0
    && (forall p | 0 <= p < |s.phils| ::
          s.phils[p] == Phil(Sitting, 0) && !s.forks[p] && s.results[p] == Result(p, 0))
  }

  // ---------------------------------------------------------------- invariant

  predicate Shape(s: State) {
    && |s.phils| == |s.forks| == |s.results| >= 2
    && s.rounds > 0
  }

  predicate HoldsLeft(pc: Pc) {
    pc in {WantRight, Eating, DropRight, DropLeft}
  }

  predicate HoldsRight(pc: Pc) {
    pc in {Eating, DropRight}
  }

  predicate Seated(pc: Pc) {
    pc != Sitting && !pc.Finished?
  }

  function SeatOf(g: Phil): nat {
    if Seated(g.pc) then 1 else 0
  }

  /** Fork f lies between philosopher f and its predecessor: it is taken by at
      most one of them, and marked exactly when it is. */
  ghost predicate ForkHeld(s: State, f: nat)
    requires Shape(s) && f < |s.forks|
  {
    var mine := HoldsLeft(s.phils[f].pc);
    var theirs := HoldsRight(s.phils[Prev(f, |s.phils|)].pc);
    (s.forks[f] <==> mine || theirs) && !(mine && theirs)
  }

  /** A fork is locked exactly while one of its two neighbours holds it, never both. */
  ghost predicate ForksHeld(s: State)
    requires Shape(s)
  {
    forall f | 0 <= f < |s.forks| :: ForkHeld(s, f)
  }

  /** The seat channel holds one token per seated philosopher, at most N - 1. */
  ghost predicate SeatsCounted(s: State)
    requires Shape(s)
  {
    s.seats == Sum(s.phils, SeatOf) <= |s.phils| - 1
  }

  /** Rounds counts exactly the iterations whose critical section was run. */
  ghost predicate RoundsCounted(s: State)
    requires Shape(s)
  {
    forall p | 0 <= p < |s.phils| ::
      var g := s.phils[p];
      && s.results[p] == Result(p, g.iter + if g.pc in {DropRight, DropLeft, Leaving} then 1 else 0)
      && (if g.pc == Finished(false) then g.iter == s.rounds else g.iter < s.rounds)
      && (g.pc == Finished(true) ==> s.cancelled)
  }

  ghost predicate Inv(s: State) {
    Shape(s) && ForksHeld(s) && SeatsCounted(s) && RoundsCounted(s)
  }

  lemma InvInit(s: State)
    requires Init(s)
    ensures Inv(s)
  {
    SumConstant(s.phils, 0, SeatOf);
  }

  lemma ForkStep(s: State, a: Action, f: nat)
    requires Shape(s) && Can(s, a) && f < |s.forks| && ForkHeld(s, f)
    ensures ForkHeld(Apply(s, a), f)
  {
  }

  lemma ForksStep(s: State, a: Action)
    requires Inv(s) && Can(s, a)
    ensures ForksHeld(Apply(s, a))
  {
    forall f | 0 <= f < |s.forks|
      ensures ForkHeld(Apply(s, a), f)
    {
      assert ForkHeld(s, f);
      ForkStep(s, a, f);
    }
  }

  /** Only sitting down and getting up change who is seated. */
  lemma SeatMoves(s: State, a: Action)
    requires Inv(s) && Can(s, a) && a != Cancel
    ensures var t := Apply(s, a);
      && |t.phils| == |s.phils| && t.phils == s.phils[a.p := t.phils[a.p]]
      && t.seats + SeatOf(s.phils[a.p]) == s.seats + SeatOf(t.phils[a.p])
      && t.seats <= |t.phils| - 1
  {
  }

  lemma SeatsStep(s: State, a: Action)
    requires Inv(s) && Can(s, a)
    ensures SeatsCounted(Apply(s, a))
  {
    if a != Cancel {
      SeatMoves(s, a);
      SumUpdate(s.phils, a.p, Apply(s, a).phils[a.p], SeatOf);
    }
  }

  /** Every step of every goroutine keeps the invariant. */
  lemma InvStep(s: State, a: Action)
    requires Inv(s) && Can(s, a)
    ensures Inv(Apply(s, a))
  {
    ForksStep(s, a);
    SeatsStep(s, a);
  }

  // ------------------------------------------------------- freedom from deadlock

  /** If nobody past the ring's first step breaks the chain, everyone wants a
      right fork. The walk goes up from p to the last seat and then on from 0. */
  lemma {:induction false} Walk(s: State, p: nat, q: nat)
    requires Shape(s) && p <= q < |s.phils|
    requires At(s, p, WantRight)
    requires forall r | 0 <= r < |s.phils| && At(s, r, WantRight) :: At(s, Right(r, |s.phils|), WantRight)
    ensures At(s, q, WantRight)
    decreases q - p
  {
    if p < q {
      assert At(s, Right(p, |s.phils|), WantRight);
      Walk(s, p + 1, q);
    }
  }

  /** Not everybody can hold a left fork and wait: somebody's right neighbour does not. */
  lemma RingBreaks(s: State, p: nat) returns (r: nat)
    requires Inv(s) && At(s, p, WantRight)
    ensures At(s, r, WantRight) && !At(s, Right(r, |s.phils|), WantRight)
  {
    var n := |s.phils|;
    if forall r | 0 <= r < n && At(s, r, WantRight) :: At(s, Right(r, n), WantRight) {
      Walk(s, p, n - 1);
      assert At(s, Right(n - 1, n), WantRight);
      forall q | 0 <= q < n
        ensures SeatOf(s.phils[q]) == 1
      {
        Walk(s, 0, q);
      }
      SumConstant(s.phils, 1, SeatOf);
      assert false;
    }
    r :| 0 <= r < n && At(s, r, WantRight) && !At(s, Right(r, n), WantRight);
  }

  predicate AllFinished(s: State) {
    forall p | 0 <= p < |s.phils| :: s.phils[p].pc.Finished?
  }

  /** `leave` never blocks: whoever is about to leave finds a token. */
  lemma LeaveNeverBlocks(s: State, p: nat)
    requires Inv(s) && At(s, p, Leaving)
    ensures Can(s, Leave(p))
  {
    SumAtLeast(s.phils, p, SeatOf);
  }

  /** Deadlock freedom: while any philosopher is unfinished, some philosopher
      (the witness) can take a step that needs no cancellation. */
  lemma Progress(s: State) returns (a: Action)
    requires Inv(s) && !AllFinished(s)
    ensures !a.Cancel? && !a.SitCancelled? && Can(s, a)
  {
    var n := |s.phils|;
    if p :| 0 <= p < n && s.phils[p].pc in {Eating, DropRight, DropLeft} {
      var pc := s.phils[p].pc;
      a := if pc == Eating then Eat(p) else if pc == DropRight then UnlockRight(p) else UnlockLeft(p);
    } else if p :| 0 <= p < n && s.phils[p].pc == Leaving {
      LeaveNeverBlocks(s, p);
      a := Leave(p);
    } else if p :| 0 <= p < n && s.phils[p].pc == WantLeft {
      assert ForkHeld(s, p);
      a := LockLeft(p);
    } else if p :| 0 <= p < n && s.phils[p].pc == WantRight {
      var r := RingBreaks(s, p);
      var f := Right(r, n);
      assert Prev(f, n) == r && ForkHeld(s, f);
      a := LockRight(r);
    } else {
      var p :| 0 <= p < n && !s.phils[p].pc.Finished?;
      SumConstant(s.phils, 0, SeatOf);
      a := Sit(p);
    }
  }

  // ---------------------------------------------------------------- termination

  function Rank(pc: Pc): nat {
    match pc
    case Sitting => 7
    case WantLeft => 6
    case WantRight => 5
    case Eating => 4
    case DropRight => 3
    case DropLeft => 2
    case Leaving => 1
    case Finished(_) => 0
  }

  /** Steps left to one philosopher out of `rounds` rounds. */
  function Work(rounds: nat): Phil -> nat {
    (g: Phil) => if g.pc.Finished? || g.iter >= rounds then 0 else 7 * (rounds - g.iter - 1) + Rank(g.pc)
  }

  function Measure(s: State): nat {
    Sum(s.phils, Work(s.rounds)) + if s.cancelled then 0 else 1
  }

  lemma LeaveWork(s: State, p: nat)
    requires Inv(s) && Can(s, Leave(p))
    ensures Work(s.rounds)(Apply(s, Leave(p)).phils[p]) < Work(s.rounds)(s.phils[p])
  {
  }

  lemma WorkStep(s: State, a: Action)
    requires Inv(s) && Can(s, a) && a != Cancel
    ensures Work(s.rounds)(Apply(s, a).phils[a.p]) < Work(s.rounds)(s.phils[a.p])
  {
    if a.Leave? {
      LeaveWork(s, a.p);
    } else {
      assert s.phils[a.p].iter < s.rounds;
      assert Apply(s, a).phils[a.p].iter == s.phils[a.p].iter;
    }
  }

  lemma MeasureStep(s: State, a: Action)
    requires Inv(s) && Can(s, a)
    ensures Measure(Apply(s, a)) < Measure(s)
  {
    if a != Cancel {
      var t := Apply(s, a);
      WorkStep(s, a);
      assert t.phils == s.phils[a.p := t.phils[a.p]];
      SumUpdate(s.phils, a.p, t.phils[a.p], Work(s.rounds));
    }
  }

  lemma NextStep(s: State, t: State)
    requires Inv(s) && Next(s, t)
    ensures Inv(t) && Measure(t) < Measure(s)
  {
    var a :| Can(s, a) && t == Apply(s, a);
    InvStep(s, a);
    MeasureStep(s, a);
  }

  lemma StepAll()
    ensures forall s, t | Inv(s) && Next(s, t) :: Inv(t) && Measure(t) < Measure(s)
  {
    forall s, t | Inv(s) && Next(s, t)
      ensures Inv(t) && Measure(t) < Measure(s)
    {
      NextStep(s, t);
    }
  }

  // --------------------------------------------------------------- main results

  /** Safety over every interleaving: two neighbours never eat at the same time,
      at most N - 1 are seated, and no `leave` blocks. */
  lemma Exclusion(run: seq<State>, i: nat, p: nat)
    requires Runs.IsRun(Next, run) && Init(run[0]) && i < |run|
    requires p < |run[i].phils|
    ensures Inv(run[i])
    ensures HoldsRight(run[i].phils[p].pc) ==> !HoldsLeft(run[i].phils[Right(p, |run[i].phils|)].pc)
    ensures At(run[i], p, Leaving) ==> Can(run[i], Leave(p))
  {
    InvInit(run[0]);
    StepAll();
    Runs.Always(Next, Inv, run);
    var s := run[i];
    assert Prev(Right(p, |s.phils|), |s.phils|) == p && ForkHeld(s, Right(p, |s.phils|));
    if At(s, p, Leaving) {
      LeaveNeverBlocks(s, p);
    }
  }

  lemma WorkAtStart(s: State)
    requires Init(s)
    ensures Measure(s) <= 7 * s.rounds * |s.phils| + 1
  {
    SumConstant(s.phils, 7 * s.rounds, Work(s.rounds));
  }

  /** What Run finds once its WaitGroup is done: the table is cleared whether or
      not the dinner was cancelled, and a philosopher failed exactly if it did
      not complete all its rounds. */
  lemma WhenFinished(s: State)
    requires Inv(s) && AllFinished(s)
    ensures s.seats == 0
    ensures forall f | 0 <= f < |s.forks| :: !s.forks[f]
    ensures forall p | 0 <= p < |s.phils| ::
      && s.results[p].philosopher == p
      && (s.phils[p].pc.failed <==> s.results[p].rounds < s.rounds)
      && (s.phils[p].pc.failed ==> s.cancelled)
      && s.results[p].rounds <= s.rounds
  {
    SumConstant(s.phils, 0, SeatOf);
    assert forall f | 0 <= f < |s.forks| :: ForkHeld(s, f) ==> !s.forks[f];
  }

  lemma SameRounds(run: seq<State>)
    requires Runs.IsRun(Next, run)
    ensures Runs.Last(run).rounds == run[0].rounds
  {
    var same := (s: State) => s.rounds == run[0].rounds;
    forall s, t | same(s) && Next(s, t)
      ensures same(t)
    {
    }
    Runs.Always(Next, same, run);
    assert same(Runs.Last(run));
  }

  /** Every schedule is finite, whenever the context is cancelled, if ever. One
      in which no goroutine can move any more has everybody finished and, if it
      was not cancelled, every philosopher fed for all its rounds. */
  lemma Terminates(run: seq<State>)
    requires Runs.IsRun(Next, run) && Init(run[0])
    ensures |run| <= 7 * run[0].rounds * |run[0].phils| + 2
    ensures Runs.Complete(Moves, run) ==>
      var s := Runs.Last(run);
      && AllFinished(s)
      && s.seats == 0
      && (forall f | 0 <= f < |s.forks| :: !s.forks[f])
      && (!s.cancelled ==> forall p | 0 <= p < |s.results| :: s.results[p] == Result(p, run[0].rounds))
  {
    InvInit(run[0]);
    StepAll();
    WorkAtStart(run[0]);
    Runs.Bounded(Next, Inv, Measure, run);
    Runs.Always(Next, Inv, run);
    SameRounds(run);
    var s := Runs.Last(run);
    if !AllFinished(s) {
      var a := Progress(s);
      assert Moves(s, Apply(s, a));
    } else {
      WhenFinished(s);
    }
  }

  // ------------------------------------------------------------------ the program

  datatype Error = TooFewPhilosophers | NegativeRounds | ContextCancelled

  datatype Outcome = Ok | Err(error: Error)

  /** The variables shared by the goroutines of one Run. */
  class Table {
    const rounds: nat
    const forks: array<bool>
    const results: array<Result>
    var seats: nat
    var phils: seq<Phil>
    var cancelled: bool

    ghost function View(): State
      reads this, forks, results
    {
      State(rounds, phils, forks[..], seats, results[..], cancelled)
    }

    constructor (philosophers: nat, rounds: nat)
      requires philosophers >= 2 && rounds > 0
      ensures fresh(this) && fresh(forks) && fresh(results)
      ensures this.rounds == rounds && |phils| == philosophers && !cancelled
      ensures Init(View())
    {
      this.rounds := rounds;
      forks := new bool[philosophers](_ => false);
      results := new Result[philosophers](i => if i >= 0 then Result(i, 0) else Result(0, 0));
      phils := seq(philosophers, _ => Phil(Sitting, 0));
      seats := 0;
      cancelled := false;
    }

    /** Whether goroutine p can run: it has not returned and is not blocked. */
    predicate Ready(p: nat)
      requires Shape(View()) && p < |phils|
      reads this, forks, results
    {
      match phils[p].pc
      case Sitting => seats < |phils| - 1 || cancelled
      case WantLeft => !forks[p]
      case WantRight => !forks[Right(p, forks.Length)]
      case Leaving => seats > 0
      case Finished(_) => false
      case _ => true
    }

    /** `sit` (table.go:99-106). `send` resolves a select whose cases are both ready. */
    method SitDown(p: nat, send: bool) returns (ghost a: Action)
      requires Shape(View()) && p < |phils| && phils[p].pc == Sitting && Ready(p)
      modifies this`seats, this`phils
      ensures Can(old(View()), a) && View() == Apply(old(View()), a)
      ensures a == if old(seats) < |phils| - 1 && (send || !cancelled) then Sit(p) else SitCancelled(p)
    {
      if seats < |phils| - 1 && (send || !cancelled) {
        seats := seats + 1;
        phils := phils[p := phils[p].(pc := WantLeft)];
        a := Sit(p);
      } else {
        phils := phils[p := phils[p].(pc := Finished(true))];
        a := SitCancelled(p);
      }
    }

    /** `leave` (table.go:108-110) and the loop head it leads to. */
    method GetUp(p: nat)
      requires Shape(View()) && p < |phils| && phils[p].pc == Leaving && seats > 0
      modifies this`seats, this`phils
      ensures Can(old(View()), Leave(p)) && View() == Apply(old(View()), Leave(p))
    {
      seats := seats - 1;
      var i := phils[p].iter + 1;
      phils := phils[p := Phil(if i < rounds then Sitting else Finished(false), i)];
    }

    /** One step of goroutine p of `dine` (table.go:77-97). */
    method Step(p: nat, send: bool) returns (ghost a: Action)
      requires Inv(View()) && p < |phils| && Ready(p)
      modifies this, forks, results
      ensures Can(old(View()), a) && a != Cancel && a.p == p
      ensures View() == Apply(old(View()), a)
    {
      var left := p;
      var right := Right(p, forks.Length);
      var g := phils[p];
      match g.pc {
        case Sitting =>
          a := SitDown(p, send);
        case WantLeft =>
          forks[left] := true;
          phils := phils[p := g.(pc := WantRight)];
          a := LockLeft(p);
        case WantRight =>
          forks[right] := true;
          phils := phils[p := g.(pc := Eating)];
          a := LockRight(p);
        case Eating =>
          results[p] := results[p].(rounds := results[p].rounds + 1);
          phils := phils[p := g.(pc := DropRight)];
          a := Eat(p);
        case DropRight =>
          forks[right] := false;
          phils := phils[p := g.(pc := DropLeft)];
          a := UnlockRight(p);
        case DropLeft =>
          forks[left] := false;
          phils := phils[p := g.(pc := Leaving)];
          a := UnlockLeft(p);
        case Leaving =>
          GetUp(p);
          a := Leave(p);
      }
    }

    method CancelContext()
      requires Shape(View()) && !cancelled
      modifies this`cancelled
      ensures View() == Apply(old(View()), Cancel)
    {
      cancelled := true;
    }
  }

  lemma SomeoneReady(table: Table)
    requires Inv(table.View()) && !AllFinished(table.View())
    ensures exists p | 0 <= p < |table.phils| :: table.Ready(p)
  {
    var a := Progress(table.View());
    assert 0 <= a.p < |table.phils| && table.Ready(a.p);
  }

  /** One turn of the scheduler: the context is cancelled, or some ready
      goroutine takes a step. Progress says there is one. */
  method Turn(table: Table)
    requires Inv(table.View()) && !AllFinished(table.View())
    modifies table, table.forks, table.results
    ensures Next(old(table.View()), table.View())
    ensures Inv(table.View()) && Measure(table.View()) < Measure(old(table.View()))
    ensures |table.phils| == old(|table.phils|)
  {
    ghost var before := table.View();
    var cancel: bool := *;
    if cancel && !table.cancelled {
      table.CancelContext();
    } else {
      SomeoneReady(table);
      var p :| 0 <= p < |table.phils| && table.Ready(p);
      var send: bool := *;
      ghost var a := table.Step(p, send);
    }
    NextStep(before, table.View());
  }

  /** Runs the dinner to its end and hands back the schedule that was followed. */
  method Serve(table: Table) returns (ghost run: seq<State>)
    requires Inv(table.View())
    modifies table, table.forks, table.results
    ensures Inv(table.View()) && AllFinished(table.View())
    ensures |table.phils| == old(|table.phils|)
    ensures Runs.IsRun(Next, run) && run[0] == old(table.View()) && Runs.Last(run) == table.View()
  {
    run := [table.View()];
    while exists p | 0 <= p < |table.phils| :: !table.phils[p].pc.Finished?
      invariant Inv(table.View()) && |table.phils| == old(|table.phils|)
      invariant Runs.IsRun(Next, run) && run[0] == old(table.View()) && Runs.Last(run) == table.View()
      decreases Measure(table.View())
    {
      Turn(table);
      Runs.Extend(Next, run, table.View());
      run := run + [table.View()];
    }
  }

  /** `Run` under an arbitrary scheduler, with an arbitrary moment of cancellation.
      It always returns, and what it returns is what its goroutines have counted by
      the end of that schedule. The returned flag says whether the context was
      cancelled by then. */
  method Run(philosophers: int, rounds: int, cancelledBefore: bool)
    returns (results: seq<Result>, err: Outcome, cancelled: bool, ghost run: seq<State>)
    ensures philosophers < 2 ==> err == Err(TooFewPhilosophers) && results == []
    ensures philosophers >= 2 && rounds < 0 ==> err == Err(NegativeRounds) && results == []
    ensures philosophers >= 2 && rounds >= 0 ==>
      && |results| == philosophers
      && (forall p | 0 <= p < philosophers :: results[p].philosopher == p && results[p].rounds <= rounds)
      && (err == Ok || err == Err(ContextCancelled))
      && (err.Err? ==> cancelled)
      && (err == Ok ==> forall p | 0 <= p < philosophers :: results[p].rounds == rounds)
      && (err.Err? && !cancelledBefore ==> exists p | 0 <= p < philosophers :: results[p].rounds < rounds)
      && (cancelledBefore ==> err.Err? && forall p | 0 <= p < philosophers :: results[p].rounds == 0)
    ensures philosophers >= 2 && rounds > 0 && !cancelledBefore ==>
      && Runs.IsRun(Next, run) && Init(run[0]) && |run[0].phils| == philosophers && run[0].rounds == rounds
      && AllFinished(Runs.Last(run))
      && results == Runs.Last(run).results && cancelled == Runs.Last(run).cancelled
  {
    cancelled, run := cancelledBefore, [];
    if philosophers < 2 {
      return [], Err(TooFewPhilosophers), cancelled, run;
    }
    if rounds < 0 {
      return [], Err(NegativeRounds), cancelled, run;
    }
    results := seq(philosophers, i requires 0 <= i => Result(i, 0));
    if cancelledBefore {
      return results, Err(ContextCancelled), cancelled, run;
    }
    if rounds == 0 {
      return results, Ok, cancelled, run;
    }

    var table := new Table(philosophers, rounds);
    InvInit(table.View());
    run := Serve(table);
    WhenFinished(table.View());
    results, cancelled := table.results[..], table.cancelled;
    err := if exists p | 0 <= p < |table.phils| :: table.phils[p].pc.Finished? && table.phils[p].pc.failed
           then Err(ContextCancelled) else Ok;
  }
}
