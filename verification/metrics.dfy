/** examples/atomiccounter/metrics.go: a peak kept by compare-and-swap.

    Every atomic operation is one step, so other goroutines may run between the
    Add of a Start and its Load, and between that Load and the CompareAndSwap.
 */
module AtomicCounter {
  import opened Sums
  import Runs

  datatype Pc =
    | Resting
    | Counting                          // requests added, inFlight.Add(1) next
    | Loading(value: int)               // in recordPeak, peak.Load() next
    | Swapping(value: int, seen: int)   // seen < value, CompareAndSwap next
    | Ending                            // success or failure added, inFlight.Add(-1) next

  datatype State = State(
    requests: int,
    success: int,
    failure: int,
    inFlight: int,
    peak: int,
    highest: int,          // the highest inFlight has ever been
    pcs: seq<Pc>)

  datatype Action =
    | Start(g: nat)
    | Count(g: nat)
    | Load(g: nat)
    | Swap(g: nat)
    | Succeed(g: nat)
    | Fail(g: nat)
    | End(g: nat)

  predicate Can(s: State, a: Action) {
    && a.g < |s.pcs|
    && var pc := s.pcs[a.g];
    match a
    case Start(_) => pc.Resting?
    case Count(_) => pc.Counting?
    case Load(_) => pc.Loading?
    case Swap(_) => pc.Swapping?
    case Succeed(_) => pc.Resting?
    case Fail(_) => pc.Resting?
    case End(_) => pc.Ending?
  }

  function Goto(s: State, g: nat, pc: Pc): State
    requires g < |s.pcs|
  {
    s.(pcs := s.pcs[g := pc])
  }

  function Apply(s: State, a: Action): State
    requires Can(s, a)
  {
    match a
    case Start(g) => Goto(s, g, Counting).(requests := s.requests + 1)
    case Count(g) =>
      var now := s.inFlight + 1;
      Goto(s, g, Loading(now)).(inFlight := now, highest := if now > s.highest then now else s.highest)
    case Load(g) =>
      var value := s.pcs[g].value;
      Goto(s, g, if value <= s.peak then Resting else Swapping(value, s.peak))
    case Swap(g) =>
      var pc := s.pcs[g];
      if s.peak == pc.seen then Goto(s, g, Resting).(peak := pc.value)
      else Goto(s, g, Loading(pc.value))
    case Succeed(g) => Goto(s, g, Ending).(success := s.success + 1)
    case Fail(g) => Goto(s, g, Ending).(failure := s.failure + 1)
    case End(g) => Goto(s, g, Resting).(inFlight := s.inFlight - 1)
  }

  predicate IsCall(a: Action) {
    a.Start? || a.Succeed? || a.Fail?
  }

  ghost predicate Next(s: State, t: State) {
    exists a :: Can(s, a) && t == Apply(s, a)
  }

  ghost predicate Init(s: State) {
    && s.requests == s.success == s.failure == s.inFlight == s.peak == s.highest == 0
    && forall g | 0 <= g < |s.pcs| :: s.pcs[g].Resting?
  }

  /** The goroutine still has value in hand for the peak. */
  predicate Carries(pc: Pc, value: int) {
    (pc.Loading? || pc.Swapping?) && pc.value == value
  }

  function MidStart(pc: Pc): nat {
    if pc.Counting? then 1 else 0
  }

  function MidEnd(pc: Pc): nat {
    if pc.Ending? then 1 else 0
  }

  /** The peak lags behind the highest value only while somebody carries it. */
  ghost predicate PeakOk(s: State) {
    && s.inFlight <= s.highest
    && 0 <= s.peak <= s.highest
    && (s.peak == s.highest || exists g :: 0 <= g < |s.pcs| && Carries(s.pcs[g], s.highest))
    && forall g | 0 <= g < |s.pcs| ::
      && (s.pcs[g].Loading? || s.pcs[g].Swapping? ==> s.pcs[g].value <= s.highest)
      && (s.pcs[g].Swapping? ==> s.pcs[g].seen < s.pcs[g].value && s.pcs[g].seen <= s.peak)
  }

  /** What started is in flight, ended, or between its two counters. */
  ghost predicate Balanced(s: State) {
    s.requests + Sum(s.pcs, MidEnd) == s.success + s.failure + s.inFlight + Sum(s.pcs, MidStart)
  }

  ghost predicate Inv(s: State) {
    PeakOk(s) && Balanced(s)
  }

  lemma PeakStep(s: State, a: Action)
    requires PeakOk(s) && Can(s, a)
    ensures PeakOk(Apply(s, a))
  {
    var t := Apply(s, a);
    if t.peak != t.highest {
      if a.Count? && t.highest != s.highest {
        assert Carries(t.pcs[a.g], t.highest);
      } else {
        var g :| 0 <= g < |s.pcs| && Carries(s.pcs[g], s.highest);
        assert Carries(t.pcs[g], s.highest);
      }
    }
  }

  lemma InvStep(s: State, a: Action)
    requires Inv(s) && Can(s, a)
    ensures Inv(Apply(s, a))
  {
    PeakStep(s, a);
    SumUpdate(s.pcs, a.g, Apply(s, a).pcs[a.g], MidStart);
    SumUpdate(s.pcs, a.g, Apply(s, a).pcs[a.g], MidEnd);
  }

  /** Whenever no Start is between its Add and the end of its loop, the peak is
      exactly the highest number of requests ever in flight; and when no call is
      under way the counters balance. */
  lemma PeakExact(run: seq<State>, i: nat)
    requires Runs.IsRun(Next, run) && Init(run[0]) && i < |run|
    ensures var s := run[i];
      && s.peak <= s.highest
      && ((forall g | 0 <= g < |s.pcs| :: !s.pcs[g].Loading? && !s.pcs[g].Swapping?) ==> s.peak == s.highest)
      && ((forall g | 0 <= g < |s.pcs| :: s.pcs[g].Resting?) ==> s.requests == s.success + s.failure + s.inFlight)
    ensures forall j | 0 <= j <= i :: run[j].inFlight <= run[i].highest
    ensures exists j | 0 <= j <= i :: run[j].inFlight == run[i].highest
  {
    SumConstant(run[0].pcs, 0, MidStart);
    SumConstant(run[0].pcs, 0, MidEnd);
    forall s, t | Inv(s) && Next(s, t)
      ensures Inv(t)
    {
      var a :| Can(s, a) && t == Apply(s, a);
      InvStep(s, a);
    }
    Runs.Always(Next, Inv, run);
    var s := run[i];
    if forall g | 0 <= g < |s.pcs| :: s.pcs[g].Resting? {
      SumConstant(s.pcs, 0, MidStart);
      SumConstant(s.pcs, 0, MidEnd);
    }
    HighestIsMax(run, i);
  }

  /** `highest` is what its name says, over the run up to any point. */
  lemma {:induction false} HighestIsMax(run: seq<State>, i: nat)
    requires Runs.IsRun(Next, run) && Init(run[0]) && i < |run|
    ensures forall j | 0 <= j <= i :: run[j].inFlight <= run[i].highest
    ensures exists j | 0 <= j <= i :: run[j].inFlight == run[i].highest
  {
    if i == 0 {
      assert run[0].inFlight == run[0].highest;
    } else {
      HighestIsMax(run, i - 1);
      assert Next(run[i - 1], run[i]);
      var j :| 0 <= j <= i - 1 && run[j].inFlight == run[i - 1].highest;
      assert run[if run[i].highest == run[i - 1].highest then j else i].inFlight == run[i].highest;
    }
  }

  /** The peak only rises, by Swap alone, and never past a value that was reached. */
  lemma PeakRises(s: State, a: Action)
    requires Inv(s) && Can(s, a)
    ensures Apply(s, a).peak >= s.peak
    ensures Apply(s, a).peak != s.peak ==> a.Swap? && Apply(s, a).pcs[a.g].Resting?
  {
  }

  // ------------------------------------------------- the CAS loops terminate

  /** Twice the distance still to go, and one for a load. */
  function Work(peak: int): Pc -> nat {
    (pc: Pc) => match pc
      case Resting => 0
      case Counting => 0
      case Ending => 1
      case Loading(value) => if value > peak then 2 * (value - peak) + 1 else 1
      case Swapping(value, seen) => if value > seen then 2 * (value - seen) else 0
  }

  predicate InLoop(pc: Pc) {
    pc.Loading? || pc.Swapping?
  }

  /** Nobody prolongs the loop of goroutine g: whatever another goroutine does, be
      it to start a request, leaves g where it is and no further from the peak. */
  lemma OthersHelp(s: State, a: Action, g: nat)
    requires Inv(s) && Can(s, a) && g < |s.pcs| && a.g != g
    ensures g < |Apply(s, a).pcs| && Apply(s, a).pcs[g] == s.pcs[g]
    ensures Work(Apply(s, a).peak)(s.pcs[g]) <= Work(s.peak)(s.pcs[g])
  {
    PeakRises(s, a);
  }

  /** Each step of the loop that does not leave it, a failed CompareAndSwap above
      all, strictly shrinks the distance still to go. */
  lemma OwnStep(s: State, a: Action)
    requires Inv(s) && Can(s, a) && InLoop(s.pcs[a.g]) && InLoop(Apply(s, a).pcs[a.g])
    ensures Work(Apply(s, a).peak)(Apply(s, a).pcs[a.g]) < Work(s.peak)(s.pcs[a.g])
  {
    if a.Swap? {
      assert s.pcs[a.g].seen < s.peak == Apply(s, a).peak;
    }
  }

  ghost predicate Steps(s: State, a: Action, t: State) {
    Can(s, a) && t == Apply(s, a)
  }

  /** How many of the actions are goroutine g's. */
  function Own(acts: seq<Action>, g: nat): nat {
    if acts == [] then 0
    else Own(acts[..|acts| - 1], g) + if acts[|acts| - 1].g == g then 1 else 0
  }

  /** Along any run, with any number of new requests under way or beginning, a
      goroutine that is still in its loop has used up the difference. */
  lemma {:induction false} LoopUses(run: seq<State>, acts: seq<Action>, g: nat)
    requires Runs.IsTrace(Steps, run, acts) && Inv(run[0])
    requires forall i | 0 <= i < |run| :: g < |run[i].pcs| && InLoop(run[i].pcs[g])
    ensures Inv(Runs.Last(run))
    ensures Own(acts, g) + Work(Runs.Last(run).peak)(Runs.Last(run).pcs[g]) <= Work(run[0].peak)(run[0].pcs[g])
  {
    if acts != [] {
      var n := |acts|;
      Runs.Shorter(Steps, run, acts);
      forall i | 0 <= i < n
        ensures g < |run[..n][i].pcs| && InLoop(run[..n][i].pcs[g])
      {
        assert run[..n][i] == run[i];
      }
      LoopUses(run[..n], acts[..n - 1], g);
      var s, a := run[n - 1], acts[n - 1];
      assert run[n] == Apply(s, a);
      InvStep(s, a);
      if a.g == g {
        OwnStep(s, a);
      } else {
        OthersHelp(s, a, g);
      }
    }
  }

  /** So the loop ends: recordPeak(value) called at a peak of `peak` stays in its loop
      for at most 2 * (value - peak) + 1 of its own steps, in any company. */
  lemma LoopBound(run: seq<State>, acts: seq<Action>, g: nat)
    requires Runs.IsTrace(Steps, run, acts) && Inv(run[0])
    requires forall i | 0 <= i < |run| :: g < |run[i].pcs| && InLoop(run[i].pcs[g])
    requires run[0].pcs[g].Loading?
    ensures var distance := run[0].pcs[g].value - run[0].peak;
      Own(acts, g) <= if distance > 0 then 2 * distance + 1 else 1
  {
    LoopUses(run, acts, g);
  }

  // ------------------------------------------------------ what is counted

  predicate IsStart(a: Action) {
    a.Start?
  }

  predicate IsSucceed(a: Action) {
    a.Succeed?
  }

  predicate IsFail(a: Action) {
    a.Fail?
  }

  /** How many of the actions are of one kind. */
  function Number(acts: seq<Action>, kind: Action -> bool): nat {
    if acts == [] then 0
    else Number(acts[..|acts| - 1], kind) + if kind(acts[|acts| - 1]) then 1 else 0
  }

  /** Over every interleaving each counter is the number of calls of its own kind. */
  lemma {:induction false} CountsCalls(run: seq<State>, acts: seq<Action>)
    requires Runs.IsTrace(Steps, run, acts) && Init(run[0])
    ensures var s := Runs.Last(run);
      && s.requests == Number(acts, IsStart)
      && s.success == Number(acts, IsSucceed)
      && s.failure == Number(acts, IsFail)
  {
    if acts != [] {
      Runs.Shorter(Steps, run, acts);
      CountsCalls(run[..|acts|], acts[..|acts| - 1]);
    }
  }

  function Uncounted(s: State): nat {
    Sum(s.pcs, MidStart)
  }

  /** All loops together, once no further request is counted. */
  lemma WorkStep(s: State, a: Action)
    requires Inv(s) && Can(s, a) && !IsCall(a) && !a.Count?
    ensures Sum(Apply(s, a).pcs, Work(Apply(s, a).peak)) < Sum(s.pcs, Work(s.peak))
  {
    var t := Apply(s, a);
    SumUpdate(s.pcs, a.g, t.pcs[a.g], Work(s.peak));
    SumMonotone(t.pcs, Work(t.peak), Work(s.peak));
    if a.Swap? && t.peak == s.peak {
      assert s.pcs[a.g].seen < s.peak;
    }
  }

  lemma CountStep(s: State, a: Action)
    requires Can(s, a) && !IsCall(a)
    ensures if a.Count? then Uncounted(Apply(s, a)) == Uncounted(s) - 1 else Uncounted(Apply(s, a)) == Uncounted(s)
  {
    SumUpdate(s.pcs, a.g, Apply(s, a).pcs[a.g], MidStart);
  }

  /** The counters and the goroutines that update them. */
  class Metrics {
    var requests: int
    var success: int
    var failure: int
    var inFlight: int
    var peak: int
    ghost var highest: int
    var pcs: seq<Pc>

    ghost function View(): State
      reads this
    {
      State(requests, success, failure, inFlight, peak, highest, pcs)
    }

    /** The zero value, used by n goroutines. */
    constructor (n: nat)
      ensures Init(View()) && Inv(View()) && |pcs| == n
    {
      requests, success, failure, inFlight, peak, highest := 0, 0, 0, 0, 0, 0;
      pcs := seq(n, _ => Resting);
      new;
      SumConstant(pcs, 0, MidStart);
      SumConstant(pcs, 0, MidEnd);
    }

    /** The first Add of Start, Succeed or Fail (metrics.go:40, :49, :56). */
    method FirstAdd(a: Action)
      requires Inv(View()) && IsCall(a) && Can(View(), a)
      modifies this
      ensures View() == Apply(old(View()), a) && Inv(View())
      ensures requests == old(requests) + (if a.Start? then 1 else 0)
      ensures success == old(success) + (if a.Succeed? then 1 else 0)
      ensures failure == old(failure) + (if a.Fail? then 1 else 0)
    {
      InvStep(View(), a);
      match a {
        case Start(_) => requests := requests + 1;
        case Succeed(_) => success := success + 1;
        case Fail(_) => failure := failure + 1;
      }
      pcs := pcs[a.g := if a.Start? then Counting else Ending];
    }

    /** The second Add of Start, or of Succeed and Fail (metrics.go:41, :50, :57), which
        returns what the caller of the latter two gets. */
    method AddInFlight(g: nat) returns (current: int)
      requires Inv(View()) && (Can(View(), Count(g)) || Can(View(), End(g)))
      modifies this
      ensures View() == Apply(old(View()), if old(pcs[g]).Counting? then Count(g) else End(g)) && Inv(View())
      ensures current == inFlight && (old(pcs[g]).Counting? ==> pcs[g] == Loading(current))
    {
      InvStep(View(), if pcs[g].Counting? then Count(g) else End(g));
      if pcs[g].Counting? {
        inFlight := inFlight + 1;
        if inFlight > highest {
          highest := inFlight;
        }
        pcs := pcs[g := Loading(inFlight)];
      } else {
        inFlight := inFlight - 1;
        pcs := pcs[g := Resting];
      }
      current := inFlight;
    }

    /** One atomic operation of recordPeak (metrics.go:88-98). */
    method RecordPeakStep(g: nat)
      requires Inv(View()) && (Can(View(), Load(g)) || Can(View(), Swap(g)))
      modifies this
      ensures View() == Apply(old(View()), if old(pcs[g]).Loading? then Load(g) else Swap(g)) && Inv(View())
    {
      InvStep(View(), if pcs[g].Loading? then Load(g) else Swap(g));
      match pcs[g] {
        case Loading(value) =>
          var current := peak;
          if value <= current {
            pcs := pcs[g := Resting];
            return;
          }
          pcs := pcs[g := Swapping(value, current)];
        case Swapping(value, seen) =>
          if peak == seen {
            peak := value;
            pcs := pcs[g := Resting];
            return;
          }
          pcs := pcs[g := Loading(value)];
      }
    }

    /** Lets an arbitrary scheduler finish the calls under way: it always can, and
        then the recorded peak is exact. */
    method Settle()
      requires Inv(View())
      modifies this
      ensures Inv(View()) && forall g | 0 <= g < |pcs| :: pcs[g].Resting?
      ensures peak == highest && requests == success + failure + inFlight
    {
      while exists g | 0 <= g < |pcs| :: !pcs[g].Resting?
        invariant Inv(View())
        decreases Uncounted(View()), Sum(pcs, Work(peak))
      {
        var g :| 0 <= g < |pcs| && !pcs[g].Resting?;
        ghost var before := View();
        if pcs[g].Counting? || pcs[g].Ending? {
          ghost var a := if pcs[g].Counting? then Count(g) else End(g);
          var _ := AddInFlight(g);
          CountStep(before, a);
          if a.End? {
            WorkStep(before, a);
          }
        } else {
          ghost var a := if pcs[g].Loading? then Load(g) else Swap(g);
          RecordPeakStep(g);
          CountStep(before, a);
          WorkStep(before, a);
        }
      }
      SumConstant(pcs, 0, MidStart);
      SumConstant(pcs, 0, MidEnd);
    }
  }
}
