/** examples/barrier/barrier.go: a reusable barrier with generations.

    One step is one critical section of Wait, from Lock or from waking up inside
    cond.Wait to the next cond.Wait or Unlock, or the critical section of Close.
    Any number of goroutines may use the barrier.
 */
module Barrier {
  import opened Sums
  import Runs

  datatype Outcome = NoCall | Nil | ErrClosed

  datatype Pc =
    | Resting(last: Outcome)
    | Entering                // about to lock the mutex in Wait
    | Asleep(gen: nat)        // in the condition's wait set
    | Awake(gen: nat)         // broadcast to, about to lock the mutex again

  datatype State = State(
    parties: nat,
    arrived: nat,
    generation: nat,
    closed: bool,
    pcs: seq<Pc>,
    passed: seq<nat>,         // how many callers of each generation returned nil
    gaveUp: nat,              // callers of the current generation that got ErrClosed
    phases: seq<nat>)         // how often each goroutine's Wait has returned nil

  datatype Action =
    | Call(g: nat)
    | Enter(g: nat)
    | Resume(g: nat)
    | Close

  predicate Shaped(s: State) {
    |s.phases| == |s.pcs| && |s.passed| == s.generation + 1
  }

  predicate Can(s: State, a: Action) {
    && Shaped(s)
    && match a
       case Call(g) => g < |s.pcs| && s.pcs[g].Resting?
       case Enter(g) => g < |s.pcs| && s.pcs[g].Entering?
       case Resume(g) => g < |s.pcs| && s.pcs[g].Awake? && s.pcs[g].gen <= s.generation
       case Close => true
  }

  function Broadcast(pcs: seq<Pc>): seq<Pc> {
    seq(|pcs|, i requires 0 <= i < |pcs| => if pcs[i].Asleep? then Awake(pcs[i].gen) else pcs[i])
  }

  function Goto(s: State, g: nat, pc: Pc): State
    requires g < |s.pcs|
  {
    s.(pcs := s.pcs[g := pc])
  }

  /** Wait returns nil to a caller of generation gen. */
  function Pass(s: State, g: nat, gen: nat): State
    requires Shaped(s) && g < |s.pcs| && gen < |s.passed|
  {
    Goto(s, g, Resting(Nil)).(passed := s.passed[gen := s.passed[gen] + 1], phases := s.phases[g := s.phases[g] + 1])
  }

  function Apply(s: State, a: Action): State
    requires Can(s, a)
  {
    match a
    case Call(g) => Goto(s, g, Entering)
    case Enter(g) =>
      if s.closed then Goto(s, g, Resting(ErrClosed))
      else if s.arrived + 1 == s.parties then
        Pass(s.(arrived := 0, generation := s.generation + 1, pcs := Broadcast(s.pcs),
                passed := s.passed + [0], gaveUp := 0),
             g, s.generation)
      else Goto(s, g, Asleep(s.generation)).(arrived := s.arrived + 1)
    case Resume(g) =>
      var gen := s.pcs[g].gen;
      if gen == s.generation && !s.closed then Goto(s, g, Asleep(gen))
      else if gen != s.generation then Pass(s, g, gen)
      else Goto(s, g, Resting(ErrClosed)).(gaveUp := s.gaveUp + 1)
    case Close => if s.closed then s else s.(closed := true, pcs := Broadcast(s.pcs))
  }

  ghost predicate Next(s: State, t: State) {
    exists a :: Can(s, a) && t == Apply(s, a)
  }

  /** A step of a call of Wait already under way. */
  ghost predicate Moves(s: State, t: State) {
    exists a: Action :: (a.Enter? || a.Resume?) && Can(s, a) && t == Apply(s, a)
  }

  ghost predicate Init(s: State) {
    && s.parties > 0 && s.arrived == 0 && s.generation == 0 && !s.closed
    && s.passed == [0] && s.gaveUp == 0 && |s.phases| == |s.pcs|
    && forall g | 0 <= g < |s.pcs| :: s.pcs[g] == Resting(NoCall) && s.phases[g] == 0
  }

  // --------------------------------------------------------------- invariant

  /** Weight 1 for a caller waiting in generation gen. */
  function In(gen: nat): Pc -> nat {
    (pc: Pc) => if (pc.Asleep? || pc.Awake?) && pc.gen == gen then 1 else 0
  }

  /** Sleepers belong to the current generation of an open barrier; a caller that
      has been woken belongs to an earlier one unless the barrier is closed. */
  ghost predicate WaitersOk(s: State) {
    forall g | 0 <= g < |s.pcs| ::
      && (s.pcs[g].Asleep? ==> s.pcs[g].gen == s.generation && !s.closed)
      && (s.pcs[g].Awake? ==> s.pcs[g].gen <= s.generation && (s.pcs[g].gen == s.generation ==> s.closed))
  }

  /** A completed generation had exactly `parties` callers: those that returned nil
      and those still on their way out. Nobody has passed the current one. */
  ghost predicate GenerationOk(s: State, gen: nat)
    requires Shaped(s) && gen <= s.generation
  {
    if gen < s.generation then s.passed[gen] + Sum(s.pcs, In(gen)) == s.parties
    else s.passed[gen] == 0 && s.arrived == Sum(s.pcs, In(gen)) + s.gaveUp
  }

  ghost predicate Inv(s: State) {
    && Shaped(s)
    && s.arrived < s.parties
    && (s.gaveUp > 0 ==> s.closed)
    && WaitersOk(s)
    && forall gen | 0 <= gen <= s.generation :: GenerationOk(s, gen)
  }

  /** Waking everybody changes no generation's number of waiters. */
  lemma {:induction false} BroadcastSum(pcs: seq<Pc>, gen: nat)
    ensures Sum(Broadcast(pcs), In(gen)) == Sum(pcs, In(gen))
  {
    if pcs != [] {
      BroadcastSum(pcs[..|pcs| - 1], gen);
      assert Broadcast(pcs)[..|pcs| - 1] == Broadcast(pcs[..|pcs| - 1]);
    }
  }

  lemma InvInit(s: State)
    requires Init(s)
    ensures Inv(s)
  {
    SumConstant(s.pcs, 0, In(0));
  }

  /** The last arrival: its generation is complete and a new one is empty. */
  lemma CompleteStep(s: State, g: nat, gen: nat)
    requires Inv(s) && Can(s, Enter(g)) && !s.closed && s.arrived + 1 == s.parties && gen <= s.generation + 1
    ensures GenerationOk(Apply(s, Enter(g)), gen)
  {
    assert gen <= s.generation ==> GenerationOk(s, gen);
    BroadcastSum(s.pcs, gen);
    SumUpdate(Broadcast(s.pcs), g, Resting(Nil), In(gen));
    if gen == s.generation + 1 {
      SumConstant(s.pcs, 0, In(gen));
    }
  }

  lemma EnterStep(s: State, g: nat, gen: nat)
    requires Inv(s) && Can(s, Enter(g)) && gen <= Apply(s, Enter(g)).generation
    ensures GenerationOk(Apply(s, Enter(g)), gen)
  {
    if !s.closed && s.arrived + 1 == s.parties {
      CompleteStep(s, g, gen);
    } else {
      assert GenerationOk(s, gen);
      SumUpdate(s.pcs, g, Apply(s, Enter(g)).pcs[g], In(gen));
    }
  }

  lemma ResumeStep(s: State, g: nat, gen: nat)
    requires Inv(s) && Can(s, Resume(g)) && gen <= s.generation
    ensures GenerationOk(Apply(s, Resume(g)), gen)
  {
    assert GenerationOk(s, gen);
    SumUpdate(s.pcs, g, Apply(s, Resume(g)).pcs[g], In(gen));
  }

  lemma InvStep(s: State, a: Action)
    requires Inv(s) && Can(s, a)
    ensures Inv(Apply(s, a))
  {
    var t := Apply(s, a);
    forall gen | 0 <= gen <= t.generation
      ensures GenerationOk(t, gen)
    {
      match a {
        case Enter(g) => EnterStep(s, g, gen);
        case Resume(g) => ResumeStep(s, g, gen);
        case Call(g) => assert GenerationOk(s, gen); SumUpdate(s.pcs, g, Entering, In(gen));
        case Close => assert GenerationOk(s, gen); BroadcastSum(s.pcs, gen);
      }
    }
  }

  // ------------------------------------------------------------ main results

  /** Over every interleaving: no caller passes a generation before all its
      `parties` callers have arrived, never more than that many pass it, and
      exactly that many once none of its callers is still on the way out. */
  lemma ReleasesExactly(run: seq<State>, i: nat, gen: nat)
    requires Runs.IsRun(Next, run) && Init(run[0]) && i < |run| && gen < |run[i].passed|
    ensures Inv(run[i])
    ensures gen == run[i].generation ==> run[i].passed[gen] == 0
    ensures run[i].passed[gen] <= run[i].parties
    ensures gen < run[i].generation && (forall g | 0 <= g < |run[i].pcs| :: In(gen)(run[i].pcs[g]) == 0) ==>
      run[i].passed[gen] == run[i].parties
  {
    InvInit(run[0]);
    forall s, t | Inv(s) && Next(s, t)
      ensures Inv(t)
    {
      var a :| Can(s, a) && t == Apply(s, a);
      InvStep(s, a);
    }
    Runs.Always(Next, Inv, run);
    assert GenerationOk(run[i], gen);
    if forall g | 0 <= g < |run[i].pcs| :: In(gen)(run[i].pcs[g]) == 0 {
      SumConstant(run[i].pcs, 0, In(gen));
    }
  }

  /** A generation completes only in the step of its last arrival, and after Close
      none does. */
  lemma Completes(s: State, a: Action)
    requires Inv(s) && Can(s, a)
    ensures Apply(s, a).generation
         == s.generation + (if a.Enter? && !s.closed && s.arrived + 1 == s.parties then 1 else 0)
    ensures s.closed ==> Apply(s, a).closed && Apply(s, a).generation == s.generation
    ensures Apply(s, a).generation > s.generation ==> Sum(s.pcs, In(s.generation)) + 1 == s.parties
  {
    assert GenerationOk(s, s.generation);
  }

  /** Wait at its lock: a closed barrier refuses the caller, the last of the `parties`
      arrivals returns nil at once, and every other caller sleeps. */
  lemma EnterResult(s: State, g: nat)
    requires Inv(s) && Can(s, Enter(g))
    ensures var pc := Apply(s, Enter(g)).pcs[g];
      && (pc == Resting(ErrClosed) <==> s.closed)
      && (pc == Resting(Nil) <==> !s.closed && Sum(s.pcs, In(s.generation)) + 1 == s.parties)
      && (pc == Asleep(s.generation) <==> !s.closed && Sum(s.pcs, In(s.generation)) + 1 < s.parties)
  {
    assert GenerationOk(s, s.generation);
  }

  /** The step lets Wait return nil to goroutine g. */
  predicate Returns(s: State, t: State, g: nat)
    requires g < |s.pcs| && |t.pcs| == |s.pcs|
  {
    !s.pcs[g].Resting? && t.pcs[g] == Resting(Nil)
  }

  /** The generation that a goroutine inside Wait belongs to. */
  function Joined(s: State, g: nat): nat
    requires g < |s.pcs|
  {
    if s.pcs[g].Asleep? || s.pcs[g].Awake? then s.pcs[g].gen else s.generation
  }

  /** The counts of nil answers are what they say: a goroutine's phase and the number
      that passed its generation grow exactly when its Wait returns nil. */
  lemma NilCounted(s: State, a: Action, g: nat, gen: nat)
    requires Inv(s) && Can(s, a) && g < |s.pcs| && gen <= s.generation
    ensures var t := Apply(s, a);
      && Shaped(t) && |t.pcs| == |s.pcs|
      && t.phases[g] == s.phases[g] + (if Returns(s, t, g) then 1 else 0)
      && (Returns(s, t, g) ==> t.passed[Joined(s, g)] == s.passed[Joined(s, g)] + 1)
      && (t.passed[gen] > s.passed[gen] ==>
            exists h :: 0 <= h < |s.pcs| && Returns(s, t, h) && Joined(s, h) == gen)
  {
    var t := Apply(s, a);
    if t.passed[gen] > s.passed[gen] {
      assert Returns(s, t, a.g) && Joined(s, a.g) == gen;
    }
  }

  /** Callers of a completed generation still get nil from a closed barrier; those
      of the unfinished one get ErrClosed. */
  lemma ResumeResult(s: State, g: nat)
    requires Inv(s) && Can(s, Resume(g))
    ensures Apply(s, Resume(g)).pcs[g] == Resting(if s.pcs[g].gen < s.generation then Nil else ErrClosed)
  {
  }

  /** An arrival may wake all n goroutines. */
  function Work(n: nat): Pc -> nat {
    (pc: Pc) => match pc
      case Resting(_) => 0
      case Entering => n + 1
      case Asleep(_) => 0
      case Awake(_) => 1
  }

  function Measure(s: State): nat {
    Sum(s.pcs, Work(|s.pcs|))
  }

  lemma MeasureStep(s: State, a: Action)
    requires Inv(s) && Can(s, a) && (a.Enter? || a.Resume?)
    ensures Measure(Apply(s, a)) < Measure(s)
  {
    var t := Apply(s, a);
    var f := Work(|s.pcs|);
    if t.generation > s.generation {
      SumRaised(s.pcs, Broadcast(s.pcs), 1, f);
      SumUpdate(Broadcast(s.pcs), a.g, t.pcs[a.g], f);
    } else {
      SumUpdate(s.pcs, a.g, t.pcs[a.g], f);
    }
  }

  /** Nobody sleeps in vain: when nothing moves any more, whoever sleeps waits at
      an open barrier for a generation with fewer than `parties` arrivals, all of
      them asleep. */
  lemma Settled(s: State)
    requires Inv(s)
    requires forall g | 0 <= g < |s.pcs| :: s.pcs[g].Resting? || s.pcs[g].Asleep?
    ensures s.closed ==> forall g | 0 <= g < |s.pcs| :: s.pcs[g].Resting?
    ensures !s.closed ==> Sum(s.pcs, In(s.generation)) == s.arrived < s.parties
    ensures forall gen | 0 <= gen < s.generation :: s.passed[gen] == s.parties
  {
    assert GenerationOk(s, s.generation);
    forall gen | 0 <= gen < s.generation
      ensures s.passed[gen] == s.parties
    {
      assert GenerationOk(s, gen);
      SumConstant(s.pcs, 0, In(gen));
    }
  }

  /** Whoever is neither resting nor asleep can run. */
  lemma Runnable(s: State, g: nat)
    requires Inv(s) && g < |s.pcs| && !s.pcs[g].Resting? && !s.pcs[g].Asleep?
    ensures Can(s, if s.pcs[g].Entering? then Enter(g) else Resume(g))
  {
  }

  /** Without new calls every schedule is finite, and ends settled. */
  lemma Settles(run: seq<State>)
    requires Runs.IsRun(Moves, run) && Inv(run[0])
    ensures |run| <= Measure(run[0]) + 1
    ensures Runs.Complete(Moves, run) ==>
      var s := Runs.Last(run);
      && (forall g | 0 <= g < |s.pcs| :: s.pcs[g].Resting? || (s.pcs[g].Asleep? && !s.closed))
      && |s.passed| == s.generation + 1
      && (forall gen | 0 <= gen < s.generation :: s.passed[gen] == s.parties)
  {
    forall s, t | Inv(s) && Moves(s, t)
      ensures Inv(t) && Measure(t) < Measure(s)
    {
      var a: Action :| (a.Enter? || a.Resume?) && Can(s, a) && t == Apply(s, a);
      InvStep(s, a);
      MeasureStep(s, a);
    }
    Runs.Bounded(Moves, Inv, Measure, run);
    Runs.Always(Moves, Inv, run);
    var s := Runs.Last(run);
    if Runs.Complete(Moves, run) {
      forall g | 0 <= g < |s.pcs|
        ensures s.pcs[g].Resting? || s.pcs[g].Asleep?
      {
        if !s.pcs[g].Resting? && !s.pcs[g].Asleep? {
          Runnable(s, g);
          assert Moves(s, Apply(s, if s.pcs[g].Entering? then Enter(g) else Resume(g)));
        }
      }
      Settled(s);
    }
  }

  // ------------------------------------------------ workers in lock step

  /** With exactly `parties` goroutines, each one's phase follows from where it is. */
  ghost predicate InStep(s: State)
    requires Shaped(s)
  {
    forall g | 0 <= g < |s.pcs| ::
      if s.pcs[g].Asleep? || s.pcs[g].Awake? then s.phases[g] == s.pcs[g].gen && s.pcs[g].gen + 1 >= s.generation
      else s.phases[g] == s.generation
  }

  ghost predicate Team(s: State) {
    Inv(s) && |s.pcs| == s.parties && InStep(s)
  }

  /** All but one goroutine weigh 1: then each of the others does. */
  lemma {:induction false} AllButOne(pcs: seq<Pc>, g: nat, gen: nat, h: nat)
    requires g < |pcs| && h < |pcs| && g != h
    requires In(gen)(pcs[g]) == 0 && Sum(pcs, In(gen)) + 1 == |pcs|
    ensures In(gen)(pcs[h]) == 1
  {
    if In(gen)(pcs[h]) == 0 {
      var n := |pcs| - 1;
      AtMost(pcs, gen, if g < h then g else h, if g < h then h else g);
    }
  }

  lemma {:induction false} AtMost(pcs: seq<Pc>, gen: nat, g: nat, h: nat)
    requires g < h < |pcs| && In(gen)(pcs[g]) == 0 && In(gen)(pcs[h]) == 0
    ensures Sum(pcs, In(gen)) + 2 <= |pcs|
  {
    var full: Pc -> nat := _ => 1;
    SumConstant(pcs[g := Asleep(gen)][h := Asleep(gen)], 1, full);
    SumUpdate(pcs, g, Asleep(gen), In(gen));
    SumUpdate(pcs[g := Asleep(gen)], h, Asleep(gen), In(gen));
    SumMonotone(pcs[g := Asleep(gen)][h := Asleep(gen)], In(gen), full);
  }

  lemma TeamStep(s: State, a: Action)
    requires Team(s) && Can(s, a)
    ensures Team(Apply(s, a))
  {
    var t := Apply(s, a);
    InvStep(s, a);
    if a.Enter? && t.generation > s.generation {
      Completes(s, a);
      forall h | 0 <= h < |s.pcs| && h != a.g
        ensures s.pcs[h].Asleep? && s.pcs[h].gen == s.generation
      {
        AllButOne(s.pcs, a.g, s.generation, h);
      }
    }
  }

  /** Exactly `parties` workers that call Wait once per phase are never more than
      one phase apart, whatever the interleaving, until the barrier is closed and
      after. */
  lemma LockStep(run: seq<State>, i: nat, g: nat, h: nat)
    requires Runs.IsRun(Next, run) && Init(run[0]) && |run[0].pcs| == run[0].parties
    requires i < |run| && g < |run[i].phases| && h < |run[i].phases|
    ensures run[i].phases[g] <= run[i].phases[h] + 1
  {
    InvInit(run[0]);
    forall s, t | Team(s) && Next(s, t)
      ensures Team(t)
    {
      var a :| Can(s, a) && t == Apply(s, a);
      TeamStep(s, a);
    }
    Runs.Always(Next, Team, run);
    assert Team(run[i]);
  }

  // -------------------------------------------------------------- the barrier

  class Rendezvous {
    const parties: nat
    var arrived: nat
    var generation: nat
    var closed: bool
    var pcs: seq<Pc>
    ghost var passed: seq<nat>
    ghost var gaveUp: nat
    ghost var phases: seq<nat>

    ghost function View(): State
      reads this
    {
      State(parties, arrived, generation, closed, pcs, passed, gaveUp, phases)
    }

    constructor (parties: nat, goroutines: nat)
      requires parties > 0
      ensures this.parties == parties && |pcs| == goroutines
      ensures Init(View()) && Inv(View())
    {
      this.parties := parties;
      arrived, generation, closed := 0, 0, false;
      passed, gaveUp := [0], 0;
      pcs := seq(goroutines, _ => Resting(NoCall));
      phases := seq(goroutines, _ => 0);
      new;
      InvInit(View());
    }

    /** b.cond.Broadcast(). */
    method BroadcastAll()
      modifies this`pcs
      ensures pcs == Broadcast(old(pcs))
    {
      for i := 0 to |pcs|
        invariant |pcs| == |old(pcs)|
        invariant forall k | 0 <= k < i :: pcs[k] == Broadcast(old(pcs))[k]
        invariant forall k | i <= k < |pcs| :: pcs[k] == old(pcs)[k]
      {
        if pcs[i].Asleep? {
          pcs := pcs[i := Awake(pcs[i].gen)];
        }
      }
    }

    /** Wait from its Lock to its first cond.Wait or its return (barrier.go:61-78). */
    method WaitSection(g: nat)
      requires Inv(View()) && Can(View(), Enter(g))
      modifies this
      ensures View() == Apply(old(View()), Enter(g)) && Inv(View())
      ensures pcs[g] == Resting(ErrClosed) <==> old(closed)
      ensures pcs[g] == Resting(Nil) <==> !old(closed) && Sum(old(pcs), In(old(generation))) + 1 == parties
      ensures pcs[g].Resting? || pcs[g] == Asleep(old(generation))
    {
      InvStep(View(), Enter(g));
      EnterResult(View(), g);
      if closed {
        pcs := pcs[g := Resting(ErrClosed)];
        return;
      }
      var gen := generation;
      arrived := arrived + 1;
      if arrived == parties {
        arrived := 0;
        generation := generation + 1;
        BroadcastAll();
        passed := passed + [0];
        gaveUp := 0;
        pcs := pcs[g := Resting(Nil)];
        passed := passed[gen := passed[gen] + 1];
        phases := phases[g := phases[g] + 1];
        return;
      }
      pcs := pcs[g := Asleep(gen)];
    }

    /** Wait from a wake-up on (barrier.go:77-84). */
    method WakeSection(g: nat)
      requires Can(View(), Resume(g))
      modifies this
      ensures View() == Apply(old(View()), Resume(g))
      ensures pcs[g] == Resting(Nil) <==> old(pcs[g].gen < generation)
      ensures pcs[g] == Resting(ErrClosed) <==> old(pcs[g].gen == generation && closed)
    {
      var gen := pcs[g].gen;
      if gen == generation && !closed {
        pcs := pcs[g := Asleep(gen)];
        return;
      }
      if gen != generation {
        pcs := pcs[g := Resting(Nil)];
        passed := passed[gen := passed[gen] + 1];
        phases := phases[g := phases[g] + 1];
        return;
      }
      pcs := pcs[g := Resting(ErrClosed)];
      gaveUp := gaveUp + 1;
    }

    method CloseSection()
      requires Inv(View())
      modifies this
      ensures View() == Apply(old(View()), Close) && Inv(View())
    {
      InvStep(View(), Close);
      if !closed {
        closed := true;
        BroadcastAll();
      }
    }

    /** Lets an arbitrary scheduler run all calls until each has returned or sleeps. */
    method Settle()
      requires Inv(View())
      modifies this
      ensures Inv(View())
      ensures forall g | 0 <= g < |pcs| :: pcs[g].Resting? || (pcs[g].Asleep? && !closed && pcs[g].gen == generation)
      ensures forall gen | 0 <= gen < generation :: passed[gen] == parties
    {
      while exists g | 0 <= g < |pcs| :: !pcs[g].Resting? && !pcs[g].Asleep?
        invariant Inv(View())
        decreases Measure(View())
      {
        var g :| 0 <= g < |pcs| && !pcs[g].Resting? && !pcs[g].Asleep?;
        ghost var before := View();
        if pcs[g].Entering? {
          MeasureStep(before, Enter(g));
          WaitSection(g);
        } else {
          MeasureStep(before, Resume(g));
          InvStep(before, Resume(g));
          WakeSection(g);
        }
      }
      Settled(View());
    }
  }

  /** New (barrier.go:39-50). */
  method NewBarrier(parties: int, goroutines: nat) returns (b: Rendezvous?)
    ensures b == null <==> parties <= 0
    ensures b != null ==> fresh(b) && b.parties == parties && Init(b.View())
  {
    b := null;
    if parties > 0 {
      b := new Rendezvous(parties, goroutines);
    }
  }
}
