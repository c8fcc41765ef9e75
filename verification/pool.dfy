/** examples/connectionpool/pool.go: a pool with a FIFO of waiting callers.

    A step is one critical section of the pool's mutex or one channel operation
    of a waiting caller. A call of Acquire is numbered when it takes the lock;
    its number also names its waiter, whose `ready` channel has one slot. The
    clients are honest: they release only what they hold, once.
 */
module ConnectionPool {
  import opened Sums
  import Runs

  datatype Slot = Empty | Full(conn: nat)

  datatype Phase =
    | Selecting                // in the select of Acquire
    | Abandoning               // took ctx.Done, about to lock the pool again
    | LastReceive              // lost the race, about to receive from ready
    | Got(conn: nat)
    | TimedOut
    | Refused                  // ErrTooManyWaiters

  datatype Call = Call(phase: Phase, ready: Slot)

  datatype State = State(
    size: nat,
    maxWaiters: nat,
    idle: seq<nat>,            // connections, by id
    waiters: seq<nat>,         // waiters, by the number of their call
    calls: seq<Call>,
    held: multiset<nat>,       // what clients have borrowed
    arrivals: seq<nat>,        // calls that joined the wait list, in order
    granted: seq<nat>)         // waiters that Release served, in order

  datatype Action =
    | Acquire
    | Receive(c: nat)
    | Abandon(c: nat)          // the context ends; the select may pick either case
    | Remove(c: nat)
    | FinalReceive(c: nat)
    | Release(conn: nat)

  function Without(ids: seq<nat>, c: nat): seq<nat> {
    if ids == [] then []
    else
      var rest := Without(ids[..|ids| - 1], c);
      var last := ids[|ids| - 1];
      if last == c then rest else rest + [last]
  }

  predicate Can(s: State, a: Action) {
    match a
    case Acquire => true
    case Receive(c) => c < |s.calls| && s.calls[c].phase.Selecting? && s.calls[c].ready.Full?
    case Abandon(c) => c < |s.calls| && s.calls[c].phase.Selecting?
    case Remove(c) => c < |s.calls| && s.calls[c].phase.Abandoning?
    case FinalReceive(c) => c < |s.calls| && s.calls[c].phase.LastReceive? && s.calls[c].ready.Full?
    case Release(conn) =>
      && conn in s.held
      && (s.waiters != [] ==> s.waiters[0] < |s.calls| && s.calls[s.waiters[0]].ready.Empty?)
  }

  function Apply(s: State, a: Action): State
    requires Can(s, a)
  {
    match a
    case Acquire =>
      var c := |s.calls|;
      if |s.idle| > 0 && |s.waiters| == 0 then
        s.(idle := s.idle[1..],
           calls := s.calls + [Call(Got(s.idle[0]), Empty)],
           held := s.held + multiset{s.idle[0]})
      else if |s.waiters| >= s.maxWaiters then
        s.(calls := s.calls + [Call(Refused, Empty)])
      else
        s.(waiters := s.waiters + [c],
           calls := s.calls + [Call(Selecting, Empty)],
           arrivals := s.arrivals + [c])
    case Receive(c) => Deliver(s, c)
    case Abandon(c) => s.(calls := s.calls[c := s.calls[c].(phase := Abandoning)])
    case Remove(c) =>
      if c in s.waiters then
        s.(waiters := Without(s.waiters, c), calls := s.calls[c := s.calls[c].(phase := TimedOut)])
      else
        s.(calls := s.calls[c := s.calls[c].(phase := LastReceive)])
    case FinalReceive(c) => Deliver(s, c)
    case Release(conn) =>
      if |s.waiters| > 0 then
        var w := s.waiters[0];
        s.(waiters := s.waiters[1..],
           calls := s.calls[w := s.calls[w].(ready := Full(conn))],
           held := s.held - multiset{conn},
           granted := s.granted + [w])
      else if |s.idle| >= s.size then
        s                      // ErrPoolFull, the client keeps the connection
      else
        s.(idle := s.idle + [conn], held := s.held - multiset{conn})
  }

  function Deliver(s: State, c: nat): State
    requires c < |s.calls| && s.calls[c].ready.Full?
  {
    var conn := s.calls[c].ready.conn;
    s.(calls := s.calls[c := Call(Got(conn), Empty)], held := s.held + multiset{conn})
  }

  ghost predicate Next(s: State, t: State) {
    exists a :: Can(s, a) && t == Apply(s, a)
  }

  function Range(n: nat): seq<nat> {
    seq(n, i requires 0 <= i => i)
  }

  ghost predicate Init(s: State) {
    && s.size > 0
    && s.idle == Range(s.size)
    && s.waiters == [] && s.calls == [] && s.held == multiset{}
    && s.arrivals == [] && s.granted == []
  }

  // -------------------------------------------------------------- invariant

  /** Weight 1 for a call whose channel holds connection x. */
  function Carries(x: nat): Call -> nat {
    (c: Call) => if c.ready == Full(x) then 1 else 0
  }

  /** In how many places connection x is. */
  function Places(s: State, x: nat): nat {
    multiset(s.idle)[x] + s.held[x] + Sum(s.calls, Carries(x))
  }

  /** The arrivals whose caller has not given up. */
  function Kept(ids: seq<nat>, calls: seq<Call>): seq<nat>
  {
    if ids == [] then []
    else
      var rest := Kept(ids[..|ids| - 1], calls);
      var last := ids[|ids| - 1];
      if last < |calls| && calls[last].phase.TimedOut? then rest else rest + [last]
  }

  ghost predicate Increasing(ids: seq<nat>, bound: nat) {
    && (forall i | 0 <= i < |ids| :: ids[i] < bound)
    && forall i, j | 0 <= i < j < |ids| :: ids[i] < ids[j]
  }

  /** Each original connection is in exactly one place: idle, borrowed, or
      handed over in some waiter's channel. There is no other connection. */
  ghost predicate Conserved(s: State) {
    forall x: nat :: Places(s, x) == if x < s.size then 1 else 0
  }

  /** A waiter is listed exactly while its call still waits with an empty channel. */
  ghost predicate Listed(s: State) {
    && Increasing(s.waiters, |s.calls|)
    && forall c | 0 <= c < |s.calls| ::
      && (c in s.waiters <==> s.calls[c].ready.Empty? && (s.calls[c].phase.Selecting? || s.calls[c].phase.Abandoning?))
      && (s.calls[c].phase.LastReceive? ==> s.calls[c].ready.Full?)
      && (s.calls[c].phase.Got? || s.calls[c].phase.TimedOut? || s.calls[c].phase.Refused? ==> s.calls[c].ready.Empty?)
  }

  ghost predicate Limits(s: State) {
    && s.size > 0
    && (s.idle != [] ==> s.waiters == [])
    && |s.waiters| <= s.maxWaiters
  }

  /** Waiters are served in the order they came, less those that gave up. */
  ghost predicate Fair(s: State) {
    && Increasing(s.arrivals, |s.calls|)
    && Kept(s.arrivals, s.calls) == s.granted + s.waiters
  }

  ghost predicate Inv(s: State) {
    Conserved(s) && Listed(s) && Limits(s) && Fair(s)
  }

  // ----------------------------------------------------------- small lemmas

  lemma {:induction false} WithoutConcat(xs: seq<nat>, ys: seq<nat>, c: nat)
    ensures Without(xs + ys, c) == Without(xs, c) + Without(ys, c)
  {
    if ys == [] {
      assert xs + ys == xs;
    } else {
      var n := |ys| - 1;
      WithoutConcat(xs, ys[..n], c);
      assert (xs + ys)[..|xs + ys| - 1] == xs + ys[..n];
    }
  }

  lemma {:induction false} WithoutAbsent(ids: seq<nat>, c: nat)
    requires c !in ids
    ensures Without(ids, c) == ids
  {
    if ids != [] {
      WithoutAbsent(ids[..|ids| - 1], c);
    }
  }

  /** Removing a number from the wait list cuts out its one place. */
  lemma WithoutCut(ids: seq<nat>, c: nat, i: nat)
    requires i < |ids| && ids[i] == c
    requires c !in ids[..i] && c !in ids[i + 1..]
    ensures Without(ids, c) == ids[..i] + ids[i + 1..]
  {
    var before, after := ids[..i], ids[i + 1..];
    assert ids == before + [c] + after;
    WithoutConcat(before + [c], after, c);
    WithoutConcat(before, [c], c);
    WithoutAbsent(before, c);
    WithoutAbsent(after, c);
  }

  /** Only giving up takes a call off the list of those kept. */
  lemma {:induction false} KeptSame(ids: seq<nat>, calls: seq<Call>, then_: seq<Call>)
    requires forall i | 0 <= i < |ids| ::
      (ids[i] < |calls| && calls[ids[i]].phase.TimedOut?) <==> (ids[i] < |then_| && then_[ids[i]].phase.TimedOut?)
    ensures Kept(ids, then_) == Kept(ids, calls)
  {
    if ids != [] {
      KeptSame(ids[..|ids| - 1], calls, then_);
    }
  }

  lemma {:induction false} KeptDrop(ids: seq<nat>, calls: seq<Call>, c: nat)
    requires c < |calls|
    ensures Kept(ids, calls[c := calls[c].(phase := TimedOut)]) == Without(Kept(ids, calls), c)
  {
    if ids != [] {
      var n := |ids| - 1;
      KeptDrop(ids[..n], calls, c);
      var rest := Kept(ids[..n], calls);
      assert (rest + [ids[n]])[..|rest|] == rest;
    }
  }

  lemma KeptAppend(ids: seq<nat>, calls: seq<Call>, c: nat)
    requires c < |calls| && !calls[c].phase.TimedOut?
    ensures Kept(ids + [c], calls) == Kept(ids, calls) + [c]
  {
    assert (ids + [c])[..|ids|] == ids;
  }

  lemma {:induction false} KeptFrom(ids: seq<nat>, calls: seq<Call>)
    ensures forall c | c in Kept(ids, calls) :: c in ids && !(c < |calls| && calls[c].phase.TimedOut?)
  {
    if ids != [] {
      KeptFrom(ids[..|ids| - 1], calls);
    }
  }

  lemma IncreasingAppend(ids: seq<nat>, c: nat, bound: nat)
    requires Increasing(ids, bound) && c < bound
    requires forall x | x in ids :: x < c
    ensures Increasing(ids + [c], bound)
  {
    assert forall i | 0 <= i < |ids| :: ids[i] in ids;
  }

  /** Keeping some of an increasing list leaves it increasing. */
  lemma {:induction false} KeptIncreasing(ids: seq<nat>, calls: seq<Call>, bound: nat)
    requires Increasing(ids, bound)
    ensures Increasing(Kept(ids, calls), bound)
  {
    if ids != [] {
      var n := |ids| - 1;
      KeptIncreasing(ids[..n], calls, bound);
      KeptFrom(ids[..n], calls);
      forall c | c in Kept(ids[..n], calls)
        ensures c < ids[n]
      {
        assert c in ids[..n];
      }
      IncreasingAppend(Kept(ids[..n], calls), ids[n], bound);
    }
  }

  /** Each waiter has one place, and none was served before. */
  lemma PlaceOf(s: State, c: nat) returns (i: nat)
    requires Listed(s) && Fair(s) && c in s.waiters
    ensures i < |s.waiters| && s.waiters[i] == c && c !in s.granted
    ensures Without(s.waiters, c) == s.waiters[..i] + s.waiters[i + 1..]
    ensures Without(s.granted, c) == s.granted
  {
    i :| 0 <= i < |s.waiters| && s.waiters[i] == c;
    WithoutCut(s.waiters, c, i);
    var all := s.granted + s.waiters;
    KeptIncreasing(s.arrivals, s.calls, |s.calls|);
    assert Increasing(all, |s.calls|) && all[|s.granted| + i] == c;
    forall j | 0 <= j < |s.granted|
      ensures s.granted[j] != c
    {
      assert all[j] == s.granted[j];
    }
    WithoutAbsent(s.granted, c);
  }

  lemma RangeFacts(n: nat)
    ensures |multiset(Range(n))| == n
    ensures forall x: nat :: multiset(Range(n))[x] == if x < n then 1 else 0
  {
    if n > 0 {
      assert Range(n) == Range(n - 1) + [n - 1];
      RangeFacts(n - 1);
    } else {
      assert Range(n) == [];
    }
  }

  lemma {:induction false} WithoutMembers(ids: seq<nat>, c: nat)
    ensures forall x :: x in Without(ids, c) <==> x in ids && x != c
  {
    if ids != [] {
      WithoutMembers(ids[..|ids| - 1], c);
      assert ids == ids[..|ids| - 1] + [ids[|ids| - 1]];
    }
  }

  // ------------------------------------------------------------ preservation

  lemma PopPlaces(idle: seq<nat>, x: nat)
    requires idle != []
    ensures multiset(idle)[x] == multiset(idle[1..])[x] + multiset{idle[0]}[x]
  {
    assert idle == [idle[0]] + idle[1..];
  }

  lemma AcquirePlaces(s: State, x: nat)
    ensures Places(Apply(s, Acquire), x) == Places(s, x)
  {
    var t := Apply(s, Acquire);
    var call := t.calls[|s.calls|];
    assert t.calls == s.calls + [call] && Carries(x)(call) == 0;
    SumAppend(s.calls, call, Carries(x));
    if |s.idle| > 0 && |s.waiters| == 0 {
      PopPlaces(s.idle, x);
    }
  }

  lemma ReleasePlaces(s: State, conn: nat, x: nat)
    requires Can(s, Release(conn))
    ensures Places(Apply(s, Release(conn)), x) == Places(s, x)
  {
    var t := Apply(s, Release(conn));
    if |s.waiters| > 0 {
      SumUpdate(s.calls, s.waiters[0], t.calls[s.waiters[0]], Carries(x));
    }
  }

  lemma CallPlaces(s: State, a: Action, x: nat)
    requires Can(s, a) && !a.Acquire? && !a.Release?
    ensures Places(Apply(s, a), x) == Places(s, x)
  {
    SumUpdate(s.calls, a.c, Apply(s, a).calls[a.c], Carries(x));
  }

  lemma PlacesStep(s: State, a: Action, x: nat)
    requires Can(s, a)
    ensures Places(Apply(s, a), x) == Places(s, x)
  {
    match a {
      case Acquire => AcquirePlaces(s, x);
      case Release(conn) => ReleasePlaces(s, conn, x);
      case _ => CallPlaces(s, a, x);
    }
  }

  lemma ConservedStep(s: State, a: Action)
    requires Inv(s) && Can(s, a)
    ensures Conserved(Apply(s, a))
  {
    forall x: nat
      ensures Places(Apply(s, a), x) == if x < s.size then 1 else 0
    {
      PlacesStep(s, a, x);
    }
  }

  lemma IncreasingNew(ids: seq<nat>, bound: nat)
    requires Increasing(ids, bound)
    ensures Increasing(ids, bound + 1) && Increasing(ids + [bound], bound + 1)
  {
  }

  /** A call that gets an answer at once is not listed. */
  lemma ListedPass(s: State, t: State, call: Call)
    requires Listed(s) && t.calls == s.calls + [call] && t.waiters == s.waiters
    requires call.ready.Empty? && (call.phase.Got? || call.phase.Refused?)
    ensures Listed(t)
  {
    var n := |s.calls|;
    assert n !in s.waiters;
    IncreasingNew(s.waiters, n);
    assert forall c | 0 <= c < n :: t.calls[c] == s.calls[c];
  }

  lemma ListedJoin(s: State, t: State)
    requires Listed(s) && t.calls == s.calls + [Call(Selecting, Empty)] && t.waiters == s.waiters + [|s.calls|]
    ensures Listed(t)
  {
    var n := |s.calls|;
    IncreasingNew(s.waiters, n);
    assert forall c | 0 <= c < n :: t.calls[c] == s.calls[c] && (c in t.waiters <==> c in s.waiters);
  }

  lemma AcquireListed(s: State)
    requires Listed(s) && Limits(s)
    ensures Listed(Apply(s, Acquire)) && Limits(Apply(s, Acquire))
  {
    var t := Apply(s, Acquire);
    var call := t.calls[|s.calls|];
    if call.phase.Selecting? {
      ListedJoin(s, t);
    } else {
      ListedPass(s, t, call);
    }
  }

  lemma TailMembers(ids: seq<nat>, bound: nat)
    requires ids != [] && Increasing(ids, bound)
    ensures Increasing(ids[1..], bound)
    ensures forall c :: c in ids[1..] <==> c in ids && c != ids[0]
  {
    assert ids == [ids[0]] + ids[1..];
  }

  lemma ReleaseListed(s: State, conn: nat)
    requires Inv(s) && Can(s, Release(conn))
    ensures Listed(Apply(s, Release(conn))) && Limits(Apply(s, Release(conn)))
  {
    if |s.waiters| > 0 {
      TailMembers(s.waiters, |s.calls|);
      var w, t := s.waiters[0], Apply(s, Release(conn));
      assert forall c | 0 <= c < |s.calls| && c != w :: t.calls[c] == s.calls[c];
    }
  }

  lemma RemoveListed(s: State, c: nat)
    requires Inv(s) && Can(s, Remove(c))
    ensures Listed(Apply(s, Remove(c))) && Limits(Apply(s, Remove(c)))
  {
    if c in s.waiters {
      var i := PlaceOf(s, c);
      WithoutMembers(s.waiters, c);
    }
  }

  /** A new call changes nothing for those that came before. */
  lemma {:induction false} KeptNew(ids: seq<nat>, calls: seq<Call>, call: Call)
    requires forall i | 0 <= i < |ids| :: ids[i] < |calls|
    ensures Kept(ids, calls + [call]) == Kept(ids, calls)
  {
    if ids != [] {
      KeptNew(ids[..|ids| - 1], calls, call);
      assert (calls + [call])[ids[|ids| - 1]] == calls[ids[|ids| - 1]];
    }
  }

  /** A caller that waits comes last, both among the arrivals and on the list. */
  lemma FairJoin(s: State, call: Call)
    requires Fair(s) && !call.phase.TimedOut?
    ensures var calls, arrivals := s.calls + [call], s.arrivals + [|s.calls|];
      && Increasing(arrivals, |calls|)
      && Kept(arrivals, calls) == s.granted + (s.waiters + [|s.calls|])
  {
    KeptNew(s.arrivals, s.calls, call);
    KeptAppend(s.arrivals, s.calls + [call], |s.calls|);
    IncreasingNew(s.arrivals, |s.calls|);
    assert s.granted + s.waiters + [|s.calls|] == s.granted + (s.waiters + [|s.calls|]);
  }

  lemma FairPass(s: State, call: Call)
    requires Fair(s)
    ensures Increasing(s.arrivals, |s.calls + [call]|)
    ensures Kept(s.arrivals, s.calls + [call]) == s.granted + s.waiters
  {
    KeptNew(s.arrivals, s.calls, call);
    IncreasingNew(s.arrivals, |s.calls|);
  }

  lemma FairAcquire(s: State)
    requires Fair(s)
    ensures Fair(Apply(s, Acquire))
  {
    var call := Apply(s, Acquire).calls[|s.calls|];
    if call.phase.Selecting? {
      FairJoin(s, call);
    } else {
      FairPass(s, call);
    }
  }

  /** Giving up takes a waiter out of both sides. */
  lemma FairRemove(s: State, c: nat)
    requires Inv(s) && Can(s, Remove(c)) && c in s.waiters
    ensures Fair(Apply(s, Remove(c)))
  {
    var i := PlaceOf(s, c);
    KeptDrop(s.arrivals, s.calls, c);
    WithoutConcat(s.granted, s.waiters, c);
  }

  /** Only giving up times a call out. */
  lemma OtherPhases(s: State, a: Action)
    requires Can(s, a) && !a.Acquire? && !(a.Remove? && a.c in s.waiters)
    ensures var t := Apply(s, a);
      && t.arrivals == s.arrivals && |t.calls| == |s.calls|
      && forall c | 0 <= c < |s.calls| :: t.calls[c].phase.TimedOut? <==> s.calls[c].phase.TimedOut?
  {
  }

  /** Being served moves the first waiter to the end of those served. */
  lemma OtherOrder(s: State, a: Action)
    requires Can(s, a) && !a.Acquire? && !(a.Remove? && a.c in s.waiters)
    ensures Apply(s, a).granted + Apply(s, a).waiters == s.granted + s.waiters
  {
    if a.Release? && |s.waiters| > 0 {
      assert s.waiters == [s.waiters[0]] + s.waiters[1..];
    }
  }

  lemma FairOther(s: State, a: Action)
    requires Fair(s) && Can(s, a) && !a.Acquire? && !(a.Remove? && a.c in s.waiters)
    ensures Fair(Apply(s, a))
  {
    OtherPhases(s, a);
    OtherOrder(s, a);
    KeptSame(s.arrivals, s.calls, Apply(s, a).calls);
  }

  lemma FairStep(s: State, a: Action)
    requires Inv(s) && Can(s, a)
    ensures Fair(Apply(s, a))
  {
    if a.Acquire? {
      FairAcquire(s);
    } else if a.Remove? && a.c in s.waiters {
      FairRemove(s, a.c);
    } else {
      FairOther(s, a);
    }
  }

  lemma InvStep(s: State, a: Action)
    requires Inv(s) && Can(s, a)
    ensures Inv(Apply(s, a))
  {
    ConservedStep(s, a);
    FairStep(s, a);
    match a {
      case Acquire => AcquireListed(s);
      case Release(conn) => ReleaseListed(s, conn);
      case Remove(c) => RemoveListed(s, c);
      case _ =>
    }
  }

  lemma InvInit(s: State)
    requires Init(s)
    ensures Inv(s)
  {
    RangeFacts(s.size);
  }

  // ------------------------------------------------------------ main results

  /** Over every interleaving of honest clients with cancellation at any moment. */
  lemma EveryRun(run: seq<State>, i: nat)
    requires Runs.IsRun(Next, run) && Init(run[0]) && i < |run|
    ensures Inv(run[i])
  {
    InvInit(run[0]);
    forall s, t | Inv(s) && Next(s, t)
      ensures Inv(t)
    {
      var a :| Can(s, a) && t == Apply(s, a);
      InvStep(s, a);
    }
    Runs.Always(Next, Inv, run);
  }

  /** Acquire at its lock: it is refused exactly when no connection is idle and the
      wait list is full, gets the longest idle connection exactly when there is one,
      and otherwise waits behind all others. */
  lemma AcquireOutcome(s: State)
    requires Limits(s)
    ensures var t, c := Apply(s, Acquire), |s.calls|;
      && |t.calls| == c + 1 && t.calls[..c] == s.calls
      && (t.calls[c].phase.Refused? <==> s.idle == [] && |s.waiters| == s.maxWaiters)
      && (t.calls[c].phase.Got? <==> s.idle != [])
      && (t.calls[c].phase.Got? ==> t.idle == s.idle[1..] && t.calls[c].phase.conn == s.idle[0])
      && (t.calls[c].phase.Selecting? <==> s.idle == [] && |s.waiters| < s.maxWaiters)
      && t.waiters == (if t.calls[c].phase.Selecting? then s.waiters + [c] else s.waiters)
  {
  }

  /** A caller that receives gets the very connection that Release handed to it, and
      one that gives up returns the context's error exactly if none was handed. */
  lemma WaitOutcome(s: State, c: nat)
    requires Inv(s) && c < |s.calls|
    ensures s.calls[c].phase.Selecting? && s.calls[c].ready.Full? ==>
      Apply(s, Receive(c)).calls[c].phase == Got(s.calls[c].ready.conn)
    ensures s.calls[c].phase.LastReceive? ==>
      Can(s, FinalReceive(c)) && Apply(s, FinalReceive(c)).calls[c].phase == Got(s.calls[c].ready.conn)
    ensures s.calls[c].phase.Abandoning? ==>
      Apply(s, Remove(c)).calls[c].phase == if s.calls[c].ready.Empty? then TimedOut else LastReceive
  {
  }

  /** Connections that are somewhere else leave room among the idle ones. */
  lemma IdleRoom(s: State, conn: nat)
    requires Conserved(s) && conn in s.held
    ensures |s.idle| < s.size
  {
    var all := multiset(Range(s.size));
    RangeFacts(s.size);
    assert forall x: nat :: multiset(s.idle)[x] + s.held[x] <= all[x] by {
      forall x: nat
        ensures multiset(s.idle)[x] + s.held[x] <= all[x]
      {
        assert Places(s, x) == if x < s.size then 1 else 0;
      }
    }
    var some := multiset(s.idle) + multiset{conn};
    assert some <= all;
    assert all == some + (all - some);
    assert |some| == |s.idle| + 1;
  }

  /** Releasing a connection one holds never blocks on the waiter's channel and
      never meets a full pool: it serves the first waiter or fills the pool. */
  lemma ReleaseSucceeds(s: State, conn: nat)
    requires Inv(s) && conn in s.held
    ensures Can(s, Release(conn))
    ensures var t := Apply(s, Release(conn));
      && t.held == s.held - multiset{conn}
      && (s.waiters != [] ==>
            && t.granted == s.granted + [s.waiters[0]]
            && t.calls[s.waiters[0]].ready == Full(conn)
            && t.idle == s.idle)
      && (s.waiters == [] ==> t.idle == s.idle + [conn] && t.calls == s.calls)
  {
    if s.waiters != [] {
      assert s.waiters[0] in s.waiters;
    }
    IdleRoom(s, conn);
  }

  /** The cancellation race: a caller that gives up and is no longer listed has
      been served, so its last receive does not block; one still listed has not. */
  lemma RaceDecided(s: State, c: nat)
    requires Inv(s) && c < |s.calls|
    ensures s.calls[c].phase.LastReceive? ==> Can(s, FinalReceive(c))
    ensures s.calls[c].phase.Abandoning? ==> (c in s.waiters <==> s.calls[c].ready.Empty?)
    ensures s.calls[c].phase.Selecting? && c !in s.waiters ==> Can(s, Receive(c))
  {
  }

  /** A connection is never in two hands: neither borrowed twice, nor borrowed
      while idle or on its way, nor on its way to two callers. */
  lemma NeverShared(s: State, conn: nat, c: nat, d: nat)
    requires Inv(s) && c < d < |s.calls|
    ensures s.held[conn] <= 1
    ensures conn in s.held ==> conn !in s.idle && s.calls[c].ready != Full(conn)
    ensures conn in s.idle ==> s.calls[c].ready != Full(conn)
    ensures s.calls[c].ready == Full(conn) ==> s.calls[d].ready != Full(conn)
  {
    assert Places(s, conn) == if conn < s.size then 1 else 0;
    SumTwo(s.calls, c, d, Carries(conn));
  }

  /** Fairness: the waiters served so far are, in order, the first of those that
      came and did not give up; a waiter served earlier came earlier. Nobody is
      overtaken, and nobody waits while a connection is idle. */
  lemma Fairness(s: State, i: nat, j: nat)
    requires Inv(s)
    ensures s.granted <= Kept(s.arrivals, s.calls)
    ensures i < |s.granted| && j < |s.waiters| ==> s.granted[i] < s.waiters[j]
    ensures i < j < |s.granted| ==> s.granted[i] < s.granted[j]
    ensures s.idle != [] ==> forall c | 0 <= c < |s.calls| && s.calls[c].phase.Selecting? :: s.calls[c].ready.Full?
    ensures |s.waiters| <= s.maxWaiters
  {
    KeptIncreasing(s.arrivals, s.calls, |s.calls|);
    var all := s.granted + s.waiters;
    assert i < |s.granted| && j < |s.waiters| ==> all[i] == s.granted[i] && all[|s.granted| + j] == s.waiters[j];
    assert i < j < |s.granted| ==> all[i] == s.granted[i] && all[j] == s.granted[j];
  }

  // ---------------------------------------------------------------- the pool

  datatype Error = NilConnection | PoolFull | TooManyWaiters | ContextDone | BadSize | BadMaxWaiters
  datatype Outcome = Ok | Err(error: Error)

  // ----------------------------------------------------------- at rest

  /** The call can go on by itself. */
  predicate GoesOn(call: Call) {
    match call.phase
    case Selecting => call.ready.Full?
    case Abandoning => true
    case LastReceive => call.ready.Full?
    case _ => false
  }

  predicate Quiet(s: State) {
    forall c | 0 <= c < |s.calls| :: !GoesOn(s.calls[c])
  }

  /** Quiet: nothing is possible but new calls, releases and cancellations. */
  lemma QuietIff(s: State)
    ensures Quiet(s) <==> forall a | Can(s, a) :: a.Acquire? || a.Release? || a.Abandon?
  {
    if c :| 0 <= c < |s.calls| && GoesOn(s.calls[c]) {
      var phase := s.calls[c].phase;
      var a := if phase.Abandoning? then Remove(c) else if phase.Selecting? then Receive(c) else FinalReceive(c);
      assert Can(s, a);
    }
  }

  /** Nobody waits in vain: at rest a caller still waits only while every one of the
      `size` connections is borrowed. */
  lemma WaitsForAll(s: State, c: nat)
    requires Inv(s) && Quiet(s) && c < |s.calls| && s.calls[c].phase.Selecting?
    ensures c in s.waiters && s.idle == []
    ensures s.held == multiset(Range(s.size)) && |s.held| == s.size
  {
    RangeFacts(s.size);
    assert !GoesOn(s.calls[c]);
    forall x: nat
      ensures s.held[x] == multiset(Range(s.size))[x]
    {
      forall d | 0 <= d < |s.calls|
        ensures Carries(x)(s.calls[d]) == 0
      {
        assert !GoesOn(s.calls[d]);
      }
      SumConstant(s.calls, 0, Carries(x));
      assert Places(s, x) == s.held[x];
    }
  }

  function Work(call: Call): nat {
    match call.phase
    case Selecting => 3
    case Abandoning => 2
    case LastReceive => 1
    case _ => 0
  }

  lemma WorkStep(s: State, a: Action)
    requires Can(s, a) && !a.Acquire? && !a.Release?
    ensures Sum(Apply(s, a).calls, Work) < Sum(s.calls, Work)
  {
    SumUpdate(s.calls, a.c, Apply(s, a).calls[a.c], Work);
  }

  /** The Go struct, its waiters' channels, and the calls of its clients. */
  class Pool {
    const capacity: nat
    const maxWaiters: nat
    var idle: seq<nat>
    var waiters: seq<nat>
    var calls: seq<Call>
    ghost var held: multiset<nat>
    ghost var arrivals: seq<nat>
    ghost var granted: seq<nat>

    ghost function View(): State
      reads this
    {
      State(capacity, maxWaiters, idle, waiters, calls, held, arrivals, granted)
    }

    constructor (size: nat, maxWaiters: nat)
      requires size > 0
      ensures capacity == size && this.maxWaiters == maxWaiters
      ensures Init(View()) && Inv(View())
    {
      capacity := size;
      this.maxWaiters := maxWaiters;
      idle, waiters, calls := [], [], [];
      held, arrivals, granted := multiset{}, [], [];
      new;
      for id := 0 to size
        invariant idle == Range(id)
        invariant waiters == [] && calls == [] && held == multiset{} && arrivals == [] && granted == []
      {
        idle := idle + [id];
        assert Range(id + 1) == Range(id) + [id];
      }
      InvInit(View());
    }

    method PopIdleLocked() returns (conn: nat)
      requires |idle| > 0
      modifies this`idle
      ensures conn == old(idle)[0] && idle == old(idle)[1..]
    {
      conn := idle[0];
      idle := idle[1..];
    }

    /** The search and the in-place shift of pool.go:181-194. */
    method RemoveWaiterLocked(target: nat) returns (removed: bool)
      requires Increasing(waiters, |calls|)
      modifies this`waiters
      ensures removed == (target in old(waiters))
      ensures waiters == Without(old(waiters), target)
    {
      var n := |waiters|;
      for i := 0 to n
        invariant waiters == old(waiters)
        invariant forall k | 0 <= k < i :: waiters[k] != target
      {
        if waiters[i] == target {
          WithoutCut(waiters, target, i);
          var k := i;
          while k + 1 < n
            invariant i <= k < n && |waiters| == n
            invariant forall m | 0 <= m < i || k < m < n :: waiters[m] == old(waiters)[m]
            invariant forall m | i <= m < k :: waiters[m] == old(waiters)[m + 1]
          {
            waiters := waiters[k := waiters[k + 1]];
            k := k + 1;
          }
          waiters := waiters[..n - 1];
          assert waiters == old(waiters)[..i] + old(waiters)[i + 1..];
          return true;
        }
      }
      WithoutAbsent(waiters, target);
      return false;
    }

    /** The locked part of Acquire (pool.go:92-105); c numbers the call. */
    method AcquireSection() returns (c: nat)
      requires Inv(View())
      modifies this
      ensures View() == Apply(old(View()), Acquire) && Inv(View())
      ensures c == old(|calls|) && |calls| == c + 1
      ensures calls[c].phase.Refused? <==> old(idle == [] && |waiters| == maxWaiters)
      ensures old(idle) != [] ==> calls[c].phase == Got(old(idle)[0])
      ensures old(idle == [] && |waiters| < maxWaiters) ==>
        calls[c].phase.Selecting? && waiters == old(waiters) + [c]
    {
      InvStep(View(), Acquire);
      AcquireOutcome(View());
      c := |calls|;
      if |idle| > 0 && |waiters| == 0 {
        var conn := PopIdleLocked();
        held := held + multiset{conn};
        calls := calls + [Call(Got(conn), Empty)];
        return;
      }
      if |waiters| >= maxWaiters {
        calls := calls + [Call(Refused, Empty)];
        return;
      }
      waiters := waiters + [c];
      arrivals := arrivals + [c];
      calls := calls + [Call(Selecting, Empty)];
    }

    /** A receive from w.ready, in the select (pool.go:108-109) or after it (:118). */
    method ReceiveReady(c: nat) returns (conn: nat)
      requires Inv(View()) && (Can(View(), Receive(c)) || Can(View(), FinalReceive(c)))
      modifies this
      ensures View() == Apply(old(View()), if old(calls[c].phase.Selecting?) then Receive(c) else FinalReceive(c))
      ensures Inv(View()) && conn in held && calls[c] == Call(Got(conn), Empty)
    {
      InvStep(View(), if calls[c].phase.Selecting? then Receive(c) else FinalReceive(c));
      conn := calls[c].ready.conn;
      calls := calls[c := Call(Got(conn), Empty)];
      held := held + multiset{conn};
    }

    method AbandonSelect(c: nat)
      requires Inv(View()) && Can(View(), Abandon(c))
      modifies this
      ensures View() == Apply(old(View()), Abandon(c)) && Inv(View())
    {
      InvStep(View(), Abandon(c));
      calls := calls[c := calls[c].(phase := Abandoning)];
    }

    /** The locked part of a cancelled Acquire (pool.go:111-116). */
    method CancelSection(c: nat) returns (removed: bool)
      requires Inv(View()) && Can(View(), Remove(c))
      modifies this
      ensures View() == Apply(old(View()), Remove(c)) && Inv(View())
      ensures removed == old(c in waiters) == old(calls[c].ready.Empty?)
    {
      InvStep(View(), Remove(c));
      RaceDecided(View(), c);
      removed := RemoveWaiterLocked(c);
      if !removed {
        assert waiters == old(waiters) by {
          WithoutAbsent(old(waiters), c);
        }
      }
      calls := calls[c := calls[c].(phase := if removed then TimedOut else LastReceive)];
    }

    /** The locked part of Release (pool.go:142-158). */
    method ReleaseSection(conn: nat) returns (err: Outcome)
      requires Can(View(), Release(conn))
      modifies this
      ensures View() == Apply(old(View()), Release(conn))
      ensures err == if old(|waiters| == 0 && |idle| >= capacity) then Err(PoolFull) else Ok
    {
      if |waiters| > 0 {
        var w := waiters[0];
        waiters := waiters[1..];
        calls := calls[w := calls[w].(ready := Full(conn))];
        held := held - multiset{conn};
        granted := granted + [w];
        return Ok;
      }
      if |idle| >= capacity {
        return Err(PoolFull);
      }
      idle := idle + [conn];
      held := held - multiset{conn};
      return Ok;
    }

    /** One step of a waiting call: its own, or the end of its context. */
    method Turn(c: nat, cancel: bool)
      requires Inv(View()) && c < |calls| && (GoesOn(calls[c]) || (cancel && calls[c].phase.Selecting?))
      modifies this
      ensures Inv(View()) && |calls| == old(|calls|)
      ensures Sum(calls, Work) < Sum(old(calls), Work)
    {
      ghost var before := View();
      if calls[c].phase.Selecting? && cancel {
        AbandonSelect(c);
        WorkStep(before, Abandon(c));
      } else if calls[c].phase.Abandoning? {
        var _ := CancelSection(c);
        WorkStep(before, Remove(c));
      } else {
        ghost var a := if calls[c].phase.Selecting? then Receive(c) else FinalReceive(c);
        var _ := ReceiveReady(c);
        WorkStep(before, a);
      }
    }

    /** Lets an arbitrary scheduler run the waiting calls, some of which may be
        cancelled on the way, until only a release could wake anyone. Whoever then
        still waits does so because every connection is borrowed. */
    method Settle()
      requires Inv(View())
      modifies this
      ensures Inv(View()) && Quiet(View())
      ensures (exists c :: 0 <= c < |calls| && calls[c].phase.Selecting?) ==> |held| == capacity
    {
      while exists c | 0 <= c < |calls| :: GoesOn(calls[c])
        invariant Inv(View())
        decreases Sum(calls, Work)
      {
        var cancel: bool := *;
        if cancel && exists c | 0 <= c < |calls| :: calls[c].phase.Selecting? {
          var c :| 0 <= c < |calls| && calls[c].phase.Selecting?;
          Turn(c, true);
        } else {
          var c :| 0 <= c < |calls| && GoesOn(calls[c]);
          Turn(c, false);
        }
      }
      ghost var s := View();
      if c :| 0 <= c < |calls| && calls[c].phase.Selecting? {
        WaitsForAll(s, c);
      }
    }

    /** Release: a client passes a connection it holds, or none at all. */
    method ReleaseConn(conn: Slot) returns (err: Outcome)
      requires Inv(View()) && (conn.Full? ==> conn.conn in held)
      modifies this
      ensures Inv(View())
      ensures conn.Empty? ==> err == Err(NilConnection) && View() == old(View())
      ensures conn.Full? ==> err == Ok && Can(old(View()), Release(conn.conn))
      ensures conn.Full? ==> View() == Apply(old(View()), Release(conn.conn))
    {
      if conn.Empty? {
        return Err(NilConnection);
      }
      ReleaseSucceeds(View(), conn.conn);
      IdleRoom(View(), conn.conn);
      InvStep(View(), Release(conn.conn));
      err := ReleaseSection(conn.conn);
    }
  }

  method NewPool(size: int, maxWaiters: int) returns (p: Pool?, err: Outcome)
    ensures p == null <==> err.Err?
    ensures err == if size <= 0 then Err(BadSize) else if maxWaiters < 0 then Err(BadMaxWaiters) else Ok
    ensures p != null ==> fresh(p) && p.capacity == size && p.maxWaiters == maxWaiters && Init(p.View())
  {
    if size <= 0 {
      return null, Err(BadSize);
    }
    if maxWaiters < 0 {
      return null, Err(BadMaxWaiters);
    }
    p := new Pool(size, maxWaiters);
    err := Ok;
  }
}
