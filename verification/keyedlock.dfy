/** examples/keyedlock/locker.go: one mutex per key in use, made on demand and
    dropped with its last reference.

    Entries are numbered in the order in which they are created, also when one
    key gets a new entry after its old one was dropped. A call of Lock is numbered
    when it takes the registry's mutex; its Unlock function belongs to it.
 */
module KeyedLock {
  import opened Sums
  import Runs

  type Key = string

  datatype Entry = Entry(key: Key, locked: bool, refs: nat)

  datatype Phase =
    | Wanting       // has its entry, e.mu.Lock() is next
    | Holding       // Lock has returned
    | Releasing     // e.mu unlocked, releaseEntry is next
    | Released

  datatype Call = Call(key: Key, entry: nat, phase: Phase)

  datatype State = State(locks: map<Key, nat>, entries: seq<Entry>, calls: seq<Call>)

  datatype Action =
    | AcquireEntry(key: Key)
    | LockEntry(c: nat)
    | Unlock(c: nat)
    | ReleaseEntry(c: nat)
    | UnlockAgain(c: nat)

  predicate At(s: State, c: nat, phase: Phase) {
    c < |s.calls| && s.calls[c].entry < |s.entries| && s.calls[c].phase == phase
  }

  predicate Can(s: State, a: Action) {
    match a
    case AcquireEntry(key) => key != "" && (key in s.locks ==> s.locks[key] < |s.entries|)
    case LockEntry(c) => At(s, c, Wanting) && !s.entries[s.calls[c].entry].locked
    case Unlock(c) => At(s, c, Holding)
    case ReleaseEntry(c) => At(s, c, Releasing) && s.entries[s.calls[c].entry].refs > 0
    case UnlockAgain(c) => At(s, c, Releasing) || At(s, c, Released)
  }

  function SetEntry(s: State, e: nat, x: Entry): State
    requires e < |s.entries|
  {
    s.(entries := s.entries[e := x])
  }

  function Goto(s: State, c: nat, phase: Phase): State
    requires c < |s.calls|
  {
    s.(calls := s.calls[c := s.calls[c].(phase := phase)])
  }

  function Apply(s: State, a: Action): State
    requires Can(s, a)
  {
    match a
    case AcquireEntry(key) =>
      if key in s.locks then
        var e := s.locks[key];
        s.(entries := s.entries[e := s.entries[e].(refs := s.entries[e].refs + 1)],
           calls := s.calls + [Call(key, e, Wanting)])
      else
        var e := |s.entries|;
        State(s.locks[key := e], s.entries + [Entry(key, false, 1)], s.calls + [Call(key, e, Wanting)])
    case LockEntry(c) =>
      var e := s.calls[c].entry;
      SetEntry(Goto(s, c, Holding), e, s.entries[e].(locked := true))
    case Unlock(c) =>
      var e := s.calls[c].entry;
      SetEntry(Goto(s, c, Releasing), e, s.entries[e].(locked := false))
    case ReleaseEntry(c) =>
      var e := s.calls[c].entry;
      var key := s.calls[c].key;
      var x := s.entries[e].(refs := s.entries[e].refs - 1);
      SetEntry(Goto(s, c, Released), e, x).(locks :=
        if x.refs == 0 && key in s.locks && s.locks[key] == e then s.locks - {key} else s.locks)
    case UnlockAgain(c) => s
  }

  ghost predicate Step(s: State, a: Action, t: State) {
    Can(s, a) && t == Apply(s, a)
  }

  ghost predicate Next(s: State, t: State) {
    exists a :: Step(s, a, t)
  }

  ghost predicate Init(s: State) {
    s == State(map[], [], [])
  }

  // -------------------------------------------------------------- invariant

  function Refers(e: nat): Call -> nat {
    (c: Call) => if c.entry == e && c.phase != Released then 1 else 0
  }

  function Holds(e: nat): Call -> nat {
    (c: Call) => if c.entry == e && c.phase == Holding then 1 else 0
  }

  /** An entry counts its holders, waiters and mid-release callers, is locked
      exactly by its holder, and is registered exactly while the count is positive. */
  ghost predicate EntryOk(s: State, e: nat)
    requires e < |s.entries|
  {
    var x := s.entries[e];
    && x.refs == Sum(s.calls, Refers(e))
    && (if x.locked then 1 else 0) == Sum(s.calls, Holds(e))
    && (x.refs > 0 <==> x.key in s.locks && s.locks[x.key] == e)
  }

  ghost predicate Inv(s: State) {
    && (forall e | 0 <= e < |s.entries| :: EntryOk(s, e))
    && (forall k | k in s.locks :: s.locks[k] < |s.entries| && s.entries[s.locks[k]].key == k && k != "")
    && (forall c | 0 <= c < |s.calls| ::
          && s.calls[c].entry < |s.entries|
          && s.entries[s.calls[c].entry].key == s.calls[c].key
          && s.calls[c].key != "")
  }

  lemma AcquireStep(s: State, key: Key, e: nat)
    requires Inv(s) && Can(s, AcquireEntry(key)) && e < |Apply(s, AcquireEntry(key)).entries|
    ensures EntryOk(Apply(s, AcquireEntry(key)), e)
  {
    var t := Apply(s, AcquireEntry(key));
    var call := t.calls[|s.calls|];
    SumAppend(s.calls, call, Refers(e));
    SumAppend(s.calls, call, Holds(e));
    if e == |s.entries| {
      SumConstant(s.calls, 0, Refers(e));
      SumConstant(s.calls, 0, Holds(e));
    } else {
      assert EntryOk(s, e);
    }
  }

  lemma CallStep(s: State, a: Action, e: nat)
    requires Inv(s) && Can(s, a) && !a.AcquireEntry? && !a.UnlockAgain? && e < |s.entries|
    ensures e < |Apply(s, a).entries| && EntryOk(Apply(s, a), e)
  {
    var t := Apply(s, a);
    SumUpdate(s.calls, a.c, t.calls[a.c], Refers(e));
    SumUpdate(s.calls, a.c, t.calls[a.c], Holds(e));
    assert EntryOk(s, e) && EntryOk(s, s.calls[a.c].entry);
    SumAtLeast(s.calls, a.c, Refers(s.calls[a.c].entry));
  }

  lemma InvStep(s: State, a: Action)
    requires Inv(s) && Can(s, a)
    ensures Inv(Apply(s, a))
  {
    var t := Apply(s, a);
    forall e | 0 <= e < |t.entries|
      ensures EntryOk(t, e)
    {
      if a.AcquireEntry? {
        AcquireStep(s, a.key, e);
      } else if a.UnlockAgain? {
        assert EntryOk(s, e);
      } else {
        CallStep(s, a, e);
      }
    }
    if !a.AcquireEntry? {
      assert |t.entries| == |s.entries| && forall e | 0 <= e < |s.entries| :: t.entries[e].key == s.entries[e].key;
      assert forall k | k in t.locks :: k in s.locks && t.locks[k] == s.locks[k];
    }
  }

  // ------------------------------------------------------------ main results

  /** The keys that callers passed to Lock, in the order of their calls. */
  function Asked(acts: seq<Action>): seq<Key> {
    if acts == [] then []
    else
      var before, a := Asked(acts[..|acts| - 1]), acts[|acts| - 1];
      if a.AcquireEntry? then before + [a.key] else before
  }

  /** Over every interleaving each call keeps the key its caller asked for, and is
      served by an entry of that key. */
  lemma {:induction false} AsAsked(run: seq<State>, acts: seq<Action>)
    requires Runs.IsTrace(Step, run, acts) && Init(run[0])
    ensures var s := Runs.Last(run);
      && |s.calls| == |Asked(acts)|
      && forall c | 0 <= c < |s.calls| ::
        && s.calls[c].key == Asked(acts)[c]
        && s.calls[c].entry < |s.entries|
        && s.entries[s.calls[c].entry].key == Asked(acts)[c]
    ensures Inv(Runs.Last(run))
  {
    if acts != [] {
      var n := |acts| - 1;
      Runs.Shorter(Step, run, acts);
      AsAsked(run[..|acts|], acts[..n]);
      InvStep(run[n], acts[n]);
    }
  }

  /** Every call not yet released has the entry that is registered for its key. */
  lemma Registered(s: State, c: nat)
    requires Inv(s) && c < |s.calls| && s.calls[c].phase != Released
    ensures s.calls[c].key in s.locks && s.locks[s.calls[c].key] == s.calls[c].entry
  {
    assert EntryOk(s, s.calls[c].entry);
    SumAtLeast(s.calls, c, Refers(s.calls[c].entry));
  }

  /** Mutual exclusion per key, although entries come and go: two callers never
      hold the same key. */
  lemma Exclusive(s: State, c: nat, d: nat)
    requires Inv(s) && c < d < |s.calls| && s.calls[c].phase == Holding && s.calls[d].phase == Holding
    ensures s.calls[c].key != s.calls[d].key
  {
    Registered(s, c);
    Registered(s, d);
    if s.calls[c].key == s.calls[d].key {
      var e := s.calls[c].entry;
      assert EntryOk(s, e);
      SumTwo(s.calls, c, d, Holds(e));
    }
  }

  /** Lock blocks if and only if another caller holds the same key. */
  lemma BlockedIff(s: State, c: nat)
    requires Inv(s) && At(s, c, Wanting)
    ensures !Can(s, LockEntry(c)) <==>
      exists d :: 0 <= d < |s.calls| && d != c && s.calls[d].phase == Holding && s.calls[d].key == s.calls[c].key
  {
    var e := s.calls[c].entry;
    assert EntryOk(s, e);
    Registered(s, c);
    if s.entries[e].locked {
      var d := SumWitness(s.calls, Holds(e));
      assert s.calls[d].phase == Holding && s.calls[d].key == s.calls[c].key;
    }
    if d :| 0 <= d < |s.calls| && d != c && s.calls[d].phase == Holding && s.calls[d].key == s.calls[c].key {
      Registered(s, d);
      SumAtLeast(s.calls, d, Holds(e));
    }
  }

  /** The registry holds exactly the keys with an unreleased call, so it is empty
      again once every caller has released, and an entry is dropped by its last. */
  lemma ActiveKeysExact(s: State)
    requires Inv(s)
    ensures s.locks.Keys == set c | 0 <= c < |s.calls| && s.calls[c].phase != Released :: s.calls[c].key
  {
    forall k | k in s.locks
      ensures exists c :: 0 <= c < |s.calls| && s.calls[c].phase != Released && s.calls[c].key == k
    {
      var e := s.locks[k];
      assert EntryOk(s, e);
      var c := SumWitness(s.calls, Refers(e));
      assert s.calls[c].key == k;
    }
    forall c | 0 <= c < |s.calls| && s.calls[c].phase != Released
      ensures s.calls[c].key in s.locks
    {
      Registered(s, c);
    }
  }

  /** releaseEntry: the test `l.locks[key] == e` (locker.go:101) never fails when
      the count reaches zero, and the count never goes below it. */
  lemma ReleaseExact(s: State, c: nat)
    requires Inv(s) && At(s, c, Releasing)
    ensures Can(s, ReleaseEntry(c))
    ensures var t := Apply(s, ReleaseEntry(c));
      var e := s.calls[c].entry;
      && s.calls[c].key in s.locks && s.locks[s.calls[c].key] == e
      && (t.entries[e].refs == 0 <==> t.locks == s.locks - {s.calls[c].key})
      && (t.entries[e].refs > 0 <==> t.locks == s.locks)
  {
    Registered(s, c);
    assert EntryOk(s, s.calls[c].entry);
    SumAtLeast(s.calls, c, Refers(s.calls[c].entry));
    var t := Apply(s, ReleaseEntry(c));
    assert s.calls[c].key in s.locks && s.calls[c].key !in s.locks - {s.calls[c].key};
  }

  /** Over every interleaving of locks, unlocks and repeated unlocks. */
  lemma EveryRun(run: seq<State>, i: nat)
    requires Runs.IsRun(Next, run) && Init(run[0]) && i < |run|
    ensures Inv(run[i])
  {
    forall s, t | Inv(s) && Next(s, t)
      ensures Inv(t)
    {
      var a :| Step(s, a, t);
      InvStep(s, a);
    }
    Runs.Always(Next, Inv, run);
  }

  /** No caller is stuck while holders release: some unreleased call can go on. */
  lemma Progress(s: State, c: nat) returns (a: Action)
    requires Inv(s) && c < |s.calls| && s.calls[c].phase != Released
    ensures Can(s, a) && (a.LockEntry? || a.Unlock? || a.ReleaseEntry?)
    ensures a.c == c || (s.calls[a.c].phase == Holding && s.calls[a.c].key == s.calls[c].key)
  {
    match s.calls[c].phase {
      case Wanting =>
        if Can(s, LockEntry(c)) {
          a := LockEntry(c);
        } else {
          BlockedIff(s, c);
          var d :| 0 <= d < |s.calls| && d != c && s.calls[d].phase == Holding && s.calls[d].key == s.calls[c].key;
          a := Unlock(d);
        }
      case Holding => a := Unlock(c);
      case Releasing => ReleaseExact(s, c); a := ReleaseEntry(c);
    }
  }

  // -------------------------------------------------------------- the locker

  datatype Error = EmptyKey
  datatype Outcome = Ok(call: nat) | Err(error: Error)

  class Locker {
    var locks: map<Key, nat>
    var entries: seq<Entry>
    var calls: seq<Call>

    ghost function View(): State
      reads this
    {
      State(locks, entries, calls)
    }

    constructor ()
      ensures Init(View()) && Inv(View())
    {
      locks, entries, calls := map[], [], [];
    }

    /** Lock up to e.mu.Lock() (locker.go:51-60, :83-94). */
    method LockSection(key: Key) returns (r: Outcome)
      requires Inv(View())
      modifies this
      ensures key == "" ==> r == Err(EmptyKey) && View() == old(View())
      ensures key != "" ==> r == Ok(old(|calls|)) && View() == Apply(old(View()), AcquireEntry(key))
      ensures key != "" ==> calls[r.call].key == key && calls[..r.call] == old(calls)
      ensures Inv(View())
    {
      if key == "" {
        return Err(EmptyKey);
      }
      InvStep(View(), AcquireEntry(key));
      var e: nat;
      if key in locks {
        e := locks[key];
      } else {
        e := |entries|;
        entries := entries + [Entry(key, false, 0)];
        locks := locks[key := e];
      }
      entries := entries[e := entries[e].(refs := entries[e].refs + 1)];
      r := Ok(|calls|);
      calls := calls + [Call(key, e, Wanting)];
    }

    /** e.mu.Lock() succeeds; afterwards no other caller holds the key. */
    method EntryLocked(c: nat)
      requires Inv(View()) && Can(View(), LockEntry(c))
      modifies this
      ensures View() == Apply(old(View()), LockEntry(c)) && Inv(View())
      ensures forall d | 0 <= d < |calls| && d != c && calls[d].phase == Holding :: calls[d].key != calls[c].key
    {
      InvStep(View(), LockEntry(c));
      var e := calls[c].entry;
      entries := entries[e := entries[e].(locked := true)];
      calls := calls[c := calls[c].(phase := Holding)];
      forall d | 0 <= d < |calls| && d != c && calls[d].phase == Holding
        ensures calls[d].key != calls[c].key
      {
        if c < d {
          Exclusive(View(), c, d);
        } else {
          Exclusive(View(), d, c);
        }
      }
    }

    /** One call of the Unlock function: only the first one does anything. */
    method UnlockOnce(c: nat)
      requires Inv(View()) && (Can(View(), Unlock(c)) || Can(View(), UnlockAgain(c)))
      modifies this
      ensures View() == if old(calls[c].phase) == Holding then Apply(old(View()), Unlock(c)) else old(View())
      ensures Inv(View())
    {
      if calls[c].phase == Holding {
        InvStep(View(), Unlock(c));
        var e := calls[c].entry;
        entries := entries[e := entries[e].(locked := false)];
        calls := calls[c := calls[c].(phase := Releasing)];
      }
    }

    /** releaseEntry (locker.go:96-104). */
    method ReleaseSection(c: nat)
      requires Inv(View()) && At(View(), c, Releasing)
      modifies this
      ensures Can(old(View()), ReleaseEntry(c)) && View() == Apply(old(View()), ReleaseEntry(c)) && Inv(View())
    {
      ReleaseExact(View(), c);
      InvStep(View(), ReleaseEntry(c));
      var key, e := calls[c].key, calls[c].entry;
      entries := entries[e := entries[e].(refs := entries[e].refs - 1)];
      if entries[e].refs == 0 && key in locks && locks[key] == e {
        locks := locks - {key};
      }
      calls := calls[c := calls[c].(phase := Released)];
    }

    /** ActiveKeys (locker.go:72-81) reports how many keys are held or waited for. */
    method ActiveKeys() returns (n: nat)
      requires Inv(View())
      ensures n == |set c | 0 <= c < |calls| && calls[c].phase != Released :: calls[c].key|
    {
      n := |locks|;
      ActiveKeysExact(View());
      assert n == |locks.Keys|;
    }
  }
}
