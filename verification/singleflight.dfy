/** examples/singleflight/group.go: concurrent calls for one key share one run.

    A call of Do is numbered when it takes the group's mutex; a run (the Go type
    `call`) when its leader creates it. What a run's function returns, value and
    error together, is one V, chosen freely by the environment.
 */
module SingleFlight {
  import opened Sums
  import Runs

  type Key = string

  datatype Option<V> = None | Some(value: V)

  datatype Phase =
    | Running       // leader: fn() is under way
    | Computed      // leader: c.value and c.err are set, wg.Done() next
    | Published     // leader: wg.Done() done, the delete is next
    | Waiting       // duplicate: in wg.Wait()
    | Returned      // Do has returned

  /** A call of Do, with what it returned: the leader's `shared` is false. */
  datatype Do<V> = Do(key: Key, run: nat, shared: bool, phase: Phase, result: Option<V>)

  datatype Run<V> = Run(key: Key, leader: nat, done: bool, value: Option<V>)

  datatype State<V> = State(calls: map<Key, nat>, runs: seq<Run<V>>, dos: seq<Do<V>>)

  datatype Action<V> =
    | Lookup(key: Key)
    | Compute(d: nat, v: V)
    | Publish(d: nat)
    | Delete(d: nat)
    | Wake(d: nat)

  predicate At<V>(s: State<V>, d: nat, phase: Phase) {
    d < |s.dos| && s.dos[d].run < |s.runs| && s.dos[d].phase == phase
  }

  predicate Can<V>(s: State<V>, a: Action<V>) {
    match a
    case Lookup(key) => key != ""
    case Compute(d, _) => At(s, d, Running)
    case Publish(d) => At(s, d, Computed)
    case Delete(d) => At(s, d, Published)
    case Wake(d) => At(s, d, Waiting) && s.runs[s.dos[d].run].done
  }

  function Apply<V>(s: State<V>, a: Action<V>): State<V>
    requires Can(s, a)
  {
    match a
    case Lookup(key) =>
      if key in s.calls then
        s.(dos := s.dos + [Do(key, s.calls[key], true, Waiting, None)])
      else
        var c := |s.runs|;
        State(s.calls[key := c], s.runs + [Run(key, |s.dos|, false, None)], s.dos + [Do(key, c, false, Running, None)])
    case Compute(d, v) =>
      var c := s.dos[d].run;
      s.(runs := s.runs[c := s.runs[c].(value := Some(v))], dos := s.dos[d := s.dos[d].(phase := Computed)])
    case Publish(d) =>
      var c := s.dos[d].run;
      s.(runs := s.runs[c := s.runs[c].(done := true)], dos := s.dos[d := s.dos[d].(phase := Published)])
    case Delete(d) =>
      s.(calls := s.calls - {s.dos[d].key},
         dos := s.dos[d := s.dos[d].(phase := Returned, result := s.runs[s.dos[d].run].value)])
    case Wake(d) =>
      s.(dos := s.dos[d := s.dos[d].(phase := Returned, result := s.runs[s.dos[d].run].value)])
  }

  ghost predicate Next<V(!new)>(s: State<V>, t: State<V>) {
    exists a :: Can(s, a) && t == Apply(s, a)
  }

  ghost predicate Init<V>(s: State<V>) {
    s.calls == map[] && s.runs == [] && s.dos == []
  }

  // --------------------------------------------------------------- invariant

  /** A run: its leader is one call that does not share, it is registered for its
      key exactly until that leader's delete, and it is done only with a value. */
  ghost predicate RunOk<V>(s: State<V>, c: nat)
    requires c < |s.runs|
  {
    var r := s.runs[c];
    && r.leader < |s.dos|
    && s.dos[r.leader].run == c && !s.dos[r.leader].shared && s.dos[r.leader].key == r.key
    && (s.dos[r.leader].phase != Returned <==> r.key in s.calls && s.calls[r.key] == c)
    && (r.value.Some? <==> s.dos[r.leader].phase != Running)
    && (r.done <==> s.dos[r.leader].phase == Published || s.dos[r.leader].phase == Returned)
  }

  ghost predicate DoOk<V>(s: State<V>, d: nat)
    requires d < |s.dos|
  {
    var x := s.dos[d];
    && x.run < |s.runs| && s.runs[x.run].key == x.key
    && (!x.shared ==> s.runs[x.run].leader == d && x.phase != Waiting)
    && (x.shared ==> s.runs[x.run].leader < d && (x.phase == Waiting || x.phase == Returned))
    && (if x.phase == Returned then x.result == s.runs[x.run].value && x.result.Some? else x.result == None)
  }

  ghost predicate Inv<V>(s: State<V>) {
    && (forall c | 0 <= c < |s.runs| :: RunOk(s, c))
    && (forall d | 0 <= d < |s.dos| :: DoOk(s, d))
    && (forall k | k in s.calls :: s.calls[k] < |s.runs| && s.runs[s.calls[k]].key == k)
  }

  lemma LookupStep<V>(s: State<V>, key: Key)
    requires Inv(s) && key != ""
    ensures Inv(Apply(s, Lookup(key)))
  {
    var t := Apply(s, Lookup(key));
    forall c | 0 <= c < |t.runs|
      ensures RunOk(t, c)
    {
      if c < |s.runs| {
        assert RunOk(s, c);
      }
    }
    forall d | 0 <= d < |t.dos|
      ensures DoOk(t, d)
    {
      if d < |s.dos| {
        assert DoOk(s, d);
      } else if key in s.calls {
        assert RunOk(s, s.calls[key]);
      }
    }
  }

  /** What the caller's own step does to its call and to its run. */
  lemma OwnFrame<V>(s: State<V>, a: Action<V>)
    requires Can(s, a) && !a.Lookup?
    ensures var t, r := Apply(s, a), s.dos[a.d].run;
      && t.dos == s.dos[a.d := t.dos[a.d]] && t.runs == s.runs[r := t.runs[r]]
      && |t.dos| == |s.dos| && |t.runs| == |s.runs|
      && t.dos[a.d].key == s.dos[a.d].key && t.dos[a.d].run == r && t.dos[a.d].shared == s.dos[a.d].shared
      && t.runs[r].key == s.runs[r].key && t.runs[r].leader == s.runs[r].leader
      && (t.runs[r].value != s.runs[r].value ==> a.Compute?)
  {
  }

  lemma OtherRun<V>(s: State<V>, a: Action<V>, c: nat)
    requires Inv(s) && Can(s, a) && !a.Lookup? && c < |s.runs|
    ensures c < |Apply(s, a).runs| && RunOk(Apply(s, a), c)
  {
    assert DoOk(s, a.d) && RunOk(s, s.dos[a.d].run) && RunOk(s, c);
  }

  lemma OtherDo<V>(s: State<V>, a: Action<V>, d: nat)
    requires Inv(s) && Can(s, a) && !a.Lookup? && d < |s.dos|
    ensures d < |Apply(s, a).dos| && DoOk(Apply(s, a), d)
  {
    OwnFrame(s, a);
    assert DoOk(s, a.d) && RunOk(s, s.dos[a.d].run);
    assert DoOk(s, d) && RunOk(s, s.dos[d].run);
  }

  lemma OtherStep<V>(s: State<V>, a: Action<V>)
    requires Inv(s) && Can(s, a) && !a.Lookup?
    ensures Inv(Apply(s, a))
  {
    var t := Apply(s, a);
    OwnFrame(s, a);
    forall c | 0 <= c < |t.runs|
      ensures RunOk(t, c)
    {
      OtherRun(s, a, c);
    }
    forall d | 0 <= d < |t.dos|
      ensures DoOk(t, d)
    {
      OtherDo(s, a, d);
    }
  }

  lemma InvStep<V>(s: State<V>, a: Action<V>)
    requires Inv(s) && Can(s, a)
    ensures Inv(Apply(s, a))
  {
    if a.Lookup? {
      LookupStep(s, a.key);
    } else {
      OtherStep(s, a);
    }
  }

  // ------------------------------------------------------------- main results

  /** At most one function runs for a key at a time; indeed at most one call that
      has not yet deleted its run leads one. */
  lemma OneAtATime<V>(s: State<V>, d: nat, e: nat)
    requires Inv(s) && d < |s.dos| && e < |s.dos|
    requires !s.dos[d].shared && s.dos[d].phase != Returned
    requires !s.dos[e].shared && s.dos[e].phase != Returned
    requires s.dos[d].key == s.dos[e].key
    ensures d == e
  {
    assert DoOk(s, d) && DoOk(s, e);
    assert RunOk(s, s.dos[d].run) && RunOk(s, s.dos[e].run);
  }

  /** The delete removes the leader's own run and no other. */
  lemma DeletesOwn<V>(s: State<V>, d: nat)
    requires Inv(s) && Can(s, Delete(d))
    ensures s.dos[d].key in s.calls && s.calls[s.dos[d].key] == s.dos[d].run
    ensures forall k | k in s.calls && k != s.dos[d].key :: k in Apply(s, Delete(d)).calls
  {
    assert DoOk(s, d);
    assert RunOk(s, s.dos[d].run);
  }

  /** A value once set is never set again: the run's one leader has moved on. */
  lemma ValueFixed<V>(s: State<V>, a: Action<V>, c: nat)
    requires Inv(s) && Can(s, a) && c < |s.runs| && s.runs[c].value.Some?
    ensures c < |Apply(s, a).runs| && Apply(s, a).runs[c].value == s.runs[c].value
  {
    assert RunOk(s, c);
    if a.Compute? {
      assert DoOk(s, a.d);
    }
  }

  /** Everyone who shares a run returns the value and error its leader returns. */
  lemma SameResult<V>(s: State<V>, d: nat, e: nat)
    requires Inv(s) && d < |s.dos| && e < |s.dos| && s.dos[d].run == s.dos[e].run
    requires s.dos[d].phase == Returned && s.dos[e].phase == Returned
    ensures s.dos[d].result == s.dos[e].result && s.dos[d].result.Some?
  {
    assert DoOk(s, d) && DoOk(s, e);
  }

  /** A duplicate never returns before the function of its run has returned, and
      its run has exactly one leader, which called Do earlier. */
  lemma DuplicateWaits<V>(s: State<V>, d: nat)
    requires Inv(s) && d < |s.dos| && s.dos[d].shared
    ensures s.dos[d].run < |s.runs|
    ensures var leader := s.runs[s.dos[d].run].leader;
      && leader < d && !s.dos[leader].shared && s.dos[leader].run == s.dos[d].run
      && (s.dos[d].phase == Returned ==> s.dos[leader].phase != Running)
    ensures forall e | 0 <= e < |s.dos| && e != s.runs[s.dos[d].run].leader ::
      s.dos[e].run == s.dos[d].run ==> s.dos[e].shared
  {
    assert DoOk(s, d);
    assert RunOk(s, s.dos[d].run);
    forall e | 0 <= e < |s.dos| && e != s.runs[s.dos[d].run].leader && s.dos[e].run == s.dos[d].run
      ensures s.dos[e].shared
    {
      assert DoOk(s, e);
    }
  }

  /** Whom a new call joins: a run exactly if its leader has not yet deleted it.
      So a call that begins after the leader's Do returned starts fresh work or
      joins a later run. */
  lemma JoinsIff<V>(s: State<V>, key: Key, c: nat)
    requires Inv(s) && key != "" && c < |s.runs| && s.runs[c].key == key
    ensures s.runs[c].leader < |s.dos|
    ensures var x := Apply(s, Lookup(key)).dos[|s.dos|];
      x.run == c <==> s.dos[s.runs[c].leader].phase != Returned
  {
    assert RunOk(s, c);
  }

  ghost predicate Step<V>(s: State<V>, a: Action<V>, t: State<V>) {
    Can(s, a) && t == Apply(s, a)
  }

  /** What the functions that call d ran have returned, in order. */
  function Yields<V>(acts: seq<Action<V>>, d: nat): seq<V> {
    if acts == [] then []
    else
      var before, a := Yields(acts[..|acts| - 1], d), acts[|acts| - 1];
      if a.Compute? && a.d == d then before + [a.v] else before
  }

  /** The value that call d, if it leads a run, has stored there. */
  function Stored<V>(s: State<V>, d: nat): seq<V> {
    if d < |s.dos| && !s.dos[d].shared && s.dos[d].run < |s.runs| && s.runs[s.dos[d].run].value.Some?
    then [s.runs[s.dos[d].run].value.value]
    else []
  }

  lemma StoredStep<V>(s: State<V>, a: Action<V>, d: nat)
    requires Inv(s) && Can(s, a)
    ensures Stored(Apply(s, a), d) == Stored(s, d) + if a.Compute? && a.d == d then [a.v] else []
  {
    if d < |s.dos| {
      assert DoOk(s, d);
      if a.Compute? {
        assert DoOk(s, a.d) && RunOk(s, s.dos[a.d].run);
      }
    }
  }

  lemma {:induction false} StoredIsYielded<V(!new)>(run: seq<State<V>>, acts: seq<Action<V>>, d: nat)
    requires Runs.IsTrace(Step<V>, run, acts) && Init(run[0])
    ensures Inv(Runs.Last(run)) && Stored(Runs.Last(run), d) == Yields(acts, d)
  {
    if acts != [] {
      var n := |acts| - 1;
      Runs.Shorter(Step<V>, run, acts);
      StoredIsYielded(run[..|acts|], acts[..n], d);
      InvStep(run[n], acts[n]);
      StoredStep(run[n], acts[n], d);
    }
  }

  /** Over every interleaving: when a call of Do has returned, the function of its own
      run has returned exactly once, and its result is the call's. */
  lemma ReturnsOwn<V(!new)>(run: seq<State<V>>, acts: seq<Action<V>>, d: nat)
    requires Runs.IsTrace(Step<V>, run, acts) && Init(run[0])
    requires d < |Runs.Last(run).dos| && Runs.Last(run).dos[d].phase == Returned
    ensures var s := Runs.Last(run);
      && s.dos[d].run < |s.runs| && s.dos[d].result.Some?
      && Yields(acts, s.runs[s.dos[d].run].leader) == [s.dos[d].result.value]
  {
    var s := Runs.Last(run);
    StoredIsYielded(run, acts, d);
    assert DoOk(s, d);
    assert RunOk(s, s.dos[d].run);
    StoredIsYielded(run, acts, s.runs[s.dos[d].run].leader);
  }

  /** Weight 1 for a run whose function has returned. */
  function Ended<V>(r: Run<V>): nat {
    if r.value.Some? then 1 else 0
  }

  /** Weight 1 for a call that has run its function and has yet to return. */
  function Returning<V>(x: Do<V>): nat {
    if !x.shared && (x.phase == Computed || x.phase == Published) then 1 else 0
  }

  /** Weight 1 for a call that has returned a result of its own. */
  function Alone<V>(x: Do<V>): nat {
    if !x.shared && x.phase == Returned then 1 else 0
  }

  /** Functions that have returned are matched one to one by calls that return, or
      have returned, with shared false. */
  ghost predicate Matched<V>(s: State<V>) {
    Sum(s.runs, Ended<V>) == Sum(s.dos, Alone<V>) + Sum(s.dos, Returning<V>)
  }

  lemma MatchedLookup<V>(s: State<V>, key: Key)
    requires Matched(s) && Can(s, Lookup(key))
    ensures Matched(Apply(s, Lookup(key)))
  {
    var t := Apply(s, Lookup(key));
    var x := t.dos[|s.dos|];
    SumAppend(s.dos, x, Alone<V>);
    SumAppend(s.dos, x, Returning<V>);
    if t.runs != s.runs {
      SumAppend(s.runs, t.runs[|s.runs|], Ended<V>);
    }
  }

  lemma MatchedWeights<V>(s: State<V>, a: Action<V>)
    requires Inv(s) && Can(s, a) && !a.Lookup?
    ensures var t, r := Apply(s, a), s.dos[a.d].run;
      Ended(t.runs[r]) + Alone(s.dos[a.d]) + Returning(s.dos[a.d])
      == Ended(s.runs[r]) + Alone(t.dos[a.d]) + Returning(t.dos[a.d])
  {
    assert DoOk(s, a.d) && RunOk(s, s.dos[a.d].run);
  }

  lemma MatchedStep<V>(s: State<V>, a: Action<V>)
    requires Inv(s) && Matched(s) && Can(s, a)
    ensures Matched(Apply(s, a))
  {
    if a.Lookup? {
      MatchedLookup(s, a.key);
    } else {
      var t, r := Apply(s, a), s.dos[a.d].run;
      OwnFrame(s, a);
      MatchedWeights(s, a);
      SumUpdate(s.dos, a.d, t.dos[a.d], Alone<V>);
      SumUpdate(s.dos, a.d, t.dos[a.d], Returning<V>);
      SumUpdate(s.runs, r, t.runs[r], Ended<V>);
    }
  }

  /** Over every run the functions that have returned are as many as the calls that
      returned with shared false and those about to; when no call is under way, as
      many as the functions that were ever started. */
  lemma RunsAreReturns<V(!new)>(run: seq<State<V>>, i: nat)
    requires Runs.IsRun(Next<V>, run) && Init(run[0]) && i < |run|
    ensures var s := run[i];
      && Inv(s) && Matched(s)
      && ((forall d | 0 <= d < |s.dos| :: s.dos[d].phase == Returned) ==>
            |s.runs| == Sum(s.runs, Ended<V>) == Sum(s.dos, Alone<V>))
  {
    var inv := (s: State<V>) => Inv(s) && Matched(s);
    forall s: State<V>, t: State<V> | inv(s) && Next(s, t)
      ensures inv(t)
    {
      var a :| Can(s, a) && t == Apply(s, a);
      InvStep(s, a);
      MatchedStep(s, a);
    }
    Runs.Always(Next<V>, inv, run);
    var s := run[i];
    assert inv(s);
    if forall d | 0 <= d < |s.dos| :: s.dos[d].phase == Returned {
      SumConstant(s.dos, 0, Returning<V>);
      forall c | 0 <= c < |s.runs|
        ensures Ended(s.runs[c]) == 1
      {
        assert RunOk(s, c);
      }
      SumConstant(s.runs, 1, Ended<V>);
    }
  }

  /** Not so after a duplicate's Do returned: a call that begins then can still
      join the finished run, between its wg.Done and its delete. */
  lemma StaleJoin<V(!new)>(v: V) returns (run: seq<State<V>>)
    ensures Runs.IsRun(Next<V>, run) && Init(run[0])
    ensures var s := Runs.Last(run);
      |s.dos| == 3 && s.dos[1] == Do("k", 0, true, Returned, Some(v)) && s.dos[2] == Do("k", 0, true, Waiting, None)
  {
    var s0: State<V> := State(map[], [], []);
    var s1 := Apply(s0, Lookup("k"));
    var s2 := Apply(s1, Lookup("k"));
    var s3 := Apply(s2, Compute(0, v));
    var s4 := Apply(s3, Publish(0));
    var s5 := Apply(s4, Wake(1));
    var s6 := Apply(s5, Lookup("k"));
    run := [s0, s1, s2, s3, s4, s5, s6];
    assert Next(s0, s1) && Next(s1, s2) && Next(s2, s3) && Next(s3, s4) && Next(s4, s5) && Next(s5, s6);
  }

  /** No call is stuck: it can go on itself, or it waits for a run whose leader can. */
  lemma Progress<V>(s: State<V>, d: nat, v: V) returns (a: Action<V>)
    requires Inv(s) && d < |s.dos| && s.dos[d].phase != Returned
    ensures !a.Lookup? && Can(s, a)
    ensures s.dos[d].run < |s.runs| && (a.d == d || a.d == s.runs[s.dos[d].run].leader)
  {
    assert DoOk(s, d);
    var c := s.dos[d].run;
    assert RunOk(s, c);
    var x := if s.dos[d].shared && !s.runs[c].done then s.runs[c].leader else d;
    assert DoOk(s, x);
    match s.dos[x].phase {
      case Running => a := Compute(x, v);
      case Computed => a := Publish(x);
      case Published => a := Delete(x);
      case Waiting => a := Wake(x);
    }
  }

  // ---------------------------------------------------------------- the group

  datatype Outcome = Ok(call: nat) | EmptyKey

  class Group<V> {
    var calls: map<Key, nat>
    var runs: seq<Run<V>>
    var dos: seq<Do<V>>

    ghost function View(): State<V>
      reads this
    {
      State(calls, runs, dos)
    }

    constructor ()
      ensures Init(View()) && Inv(View())
    {
      calls, runs, dos := map[], [], [];
    }

    /** The first locked part of Do (group.go:56-75). */
    method LookupSection(key: Key) returns (r: Outcome)
      requires Inv(View())
      modifies this
      ensures key == "" ==> r == EmptyKey && View() == old(View())
      ensures key != "" ==> r == Ok(old(|dos|)) && View() == Apply(old(View()), Lookup(key))
      ensures Inv(View())
    {
      if key == "" {
        return EmptyKey;
      }
      InvStep(View(), Lookup(key));
      r := Ok(|dos|);
      if key in calls {
        dos := dos + [Do(key, calls[key], true, Waiting, None)];
        return;
      }
      var c := |runs|;
      runs := runs + [Run(key, |dos|, false, None)];
      calls := calls[key := c];
      dos := dos + [Do(key, c, false, Running, None)];
    }

    /** The leader's function returns v (group.go:77). */
    method FnReturns(d: nat, v: V)
      requires Inv(View()) && Can(View(), Compute(d, v))
      modifies this
      ensures View() == Apply(old(View()), Compute(d, v)) && Inv(View())
      ensures dos[d].run < |runs| && runs[dos[d].run].value == Some(v)
    {
      InvStep(View(), Compute(d, v));
      var c := dos[d].run;
      runs := runs[c := runs[c].(value := Some(v))];
      dos := dos[d := dos[d].(phase := Computed)];
    }

    /** c.wg.Done() (group.go:78). */
    method WgDone(d: nat)
      requires Inv(View()) && Can(View(), Publish(d))
      modifies this
      ensures View() == Apply(old(View()), Publish(d)) && Inv(View())
    {
      InvStep(View(), Publish(d));
      var c := dos[d].run;
      runs := runs[c := runs[c].(done := true)];
      dos := dos[d := dos[d].(phase := Published)];
    }

    /** The second locked part, and the leader's return (group.go:80-84). */
    method DeleteSection(d: nat) returns (v: Option<V>, shared: bool)
      requires Inv(View()) && Can(View(), Delete(d))
      modifies this
      ensures View() == Apply(old(View()), Delete(d)) && Inv(View())
      ensures v == dos[d].result && v.Some? && shared == dos[d].shared == false
      ensures dos[d].run < |runs| && v == runs[dos[d].run].value
    {
      InvStep(View(), Delete(d));
      assert DoOk(View(), d) && RunOk(View(), dos[d].run);
      v, shared := runs[dos[d].run].value, false;
      calls := calls - {dos[d].key};
      dos := dos[d := dos[d].(phase := Returned, result := v)];
    }

    /** existing.wg.Wait() is over: the duplicate returns (group.go:68-69). */
    method WaitOver(d: nat) returns (v: Option<V>, shared: bool)
      requires Inv(View()) && Can(View(), Wake(d))
      modifies this
      ensures View() == Apply(old(View()), Wake(d)) && Inv(View())
      ensures v == dos[d].result && v.Some? && shared == dos[d].shared == true
      ensures dos[d].run < |runs| && v == runs[dos[d].run].value
    {
      InvStep(View(), Wake(d));
      assert DoOk(View(), d) && RunOk(View(), dos[d].run);
      v, shared := runs[dos[d].run].value, true;
      dos := dos[d := dos[d].(phase := Returned, result := v)];
    }
  }
}
