/** How far the documented promise of Unsubscribe, "after it returns, the subscriber
    channel is closed", holds of the code.

    Close takes the entries out of the registry before it closes their channels
    (broker.go:138-148), so an Unsubscribe that begins in between finds nothing and
    returns. The promise is proved to hold in every schedule of the calls under
    way if and only if no Close can get or has got the subscriber first, which is
    a question about the state before Unsubscribe begins.
 */
module PubSubRace {
  import opened Sums
  import opened PubSubProtocol
  import opened PubSubResult
  import Runs

  /** Closer c is an Unsubscribe of subscriber id that is about to lock b.mu. */
  predicate About(s: State, c: nat, id: nat) {
    c < |s.closers| && s.closers[c] == Want(One(id))
  }

  /** The promise: however the calls under way go on, once c has returned the channel
      is closed. */
  ghost predicate Promise(s: State, c: nat, id: nat) {
    forall run: seq<State> |
        Runs.IsRun(Moves, run) && run[0] == s && c < |Runs.Last(run).closers| && Runs.Last(run).closers[c].Returned? ::
      id < |Runs.Last(run).subs| && Runs.Last(run).subs[id].chClosed
  }

  /** A Close that neither has subscriber id to close nor will have. */
  predicate Harmless(s: State, x: Closer, id: nat) {
    x.kind.All? ==>
      || x.Returned?
      || (x.Want? && (s.closed || id !in s.registry))
      || (Busy(x) && id !in x.todo)
  }

  /** What a caller has to know before it unsubscribes. */
  ghost predicate Undisturbed(s: State, id: nat) {
    || (id < |s.subs| && s.subs[id].chClosed)
    || forall d | 0 <= d < |s.closers| :: Harmless(s, s.closers[d], id)
  }

  // ---------------------------------------------------- undisturbed: it holds

  /** The call goes on undisturbed, or the channel is closed. */
  ghost predicate OnTrack(s: State, c: nat, id: nat) {
    && Handshake(s)
    && c < |s.closers| && s.closers[c].kind == One(id) && id < |s.subs|
    && (!s.subs[id].chClosed ==>
          !s.closers[c].Returned? && forall d | 0 <= d < |s.closers| :: Harmless(s, s.closers[d], id))
  }

  lemma CloserFrame(s: State, a: Action)
    requires Can(s, a) && ByCloser(a)
    ensures var t := Apply(s, a);
      && |t.closers| == |s.closers| && |t.subs| == |s.subs|
      && (s.closed ==> t.closed) && t.registry <= s.registry
      && t.closers == s.closers[a.c := t.closers[a.c]]
      && forall i | 0 <= i < |s.subs| :: s.subs[i].chClosed ==> t.subs[i].chClosed
  {
  }

  /** What a step does to the closers and to what they look at. */
  lemma MoveFrame(s: State, a: Action)
    requires Can(s, a) && !IsCall(a)
    ensures var t := Apply(s, a);
      && |t.closers| == |s.closers| && |t.subs| == |s.subs|
      && (s.closed ==> t.closed) && t.registry <= s.registry
      && (if ByCloser(a) then t.closers == s.closers[a.c := t.closers[a.c]] else t.closers == s.closers)
      && forall i | 0 <= i < |s.subs| :: s.subs[i].chClosed ==> t.subs[i].chClosed
  {
    if ByPublisher(a) {
      PublisherFrame(s, a);
    } else if ByCloser(a) {
      CloserFrame(s, a);
    }
  }

  /** A harmless Close stays so. */
  lemma HarmlessMove(s: State, a: Action, id: nat)
    requires Handshake(s) && Can(s, a) && ByCloser(a) && Harmless(s, s.closers[a.c], id)
    ensures a.c < |Apply(s, a).closers| && Harmless(Apply(s, a), Apply(s, a).closers[a.c], id)
  {
    assert CloserOk(s, s.closers[a.c]);
    if a.Shut? || a.CloseCh? {
      var todo := s.closers[a.c].todo;
      assert forall i | i in todo[1..] :: i in todo;
    }
  }

  lemma HarmlessStep(s: State, a: Action, id: nat)
    requires Handshake(s) && Can(s, a) && !IsCall(a)
    requires forall d | 0 <= d < |s.closers| :: Harmless(s, s.closers[d], id)
    ensures forall d | 0 <= d < |Apply(s, a).closers| :: Harmless(Apply(s, a), Apply(s, a).closers[d], id)
  {
    var t := Apply(s, a);
    MoveFrame(s, a);
    forall d | 0 <= d < |t.closers|
      ensures Harmless(t, t.closers[d], id)
    {
      assert Harmless(s, s.closers[d], id);
      if ByCloser(a) && d == a.c {
        HarmlessMove(s, a, id);
      }
    }
  }

  /** Nobody has the subscriber on its list, and it is not registered: it is closed. */
  lemma OwnerLess(s: State, id: nat)
    requires Handshake(s) && id < |s.subs| && id !in s.registry && !s.locked
    requires forall d | 0 <= d < |s.closers| :: Harmless(s, s.closers[d], id)
    ensures s.subs[id].chClosed
  {
    assert SubOk(s, id);
    if !s.subs[id].chClosed {
      var d := SumWitness(s.closers, Owns(id));
      assert Busy(s.closers[d]) && id in s.closers[d].todo;
      assert Harmless(s, s.closers[d], id);
      UnsubscribeOwns(s, id, d);
    }
  }

  /** When an undisturbed Unsubscribe returns, its channel is closed. */
  lemma ReturnsClosed(s: State, a: Action, c: nat, id: nat)
    requires OnTrack(s, c, id) && !s.closers[c].Returned? && Can(s, a) && ByCloser(a) && a.c == c
    requires Apply(s, a).closers[c].Returned?
    ensures s.subs[id].chClosed
  {
    assert CloserOk(s, s.closers[c]);
    if a.UnsubscribeLock? {
      if !s.subs[id].chClosed {
        OwnerLess(s, id);
      }
    } else {
      SumAtLeast(s.closers, c, HoldsLock);
    }
  }

  lemma OnTrackStep(s: State, a: Action, c: nat, id: nat)
    requires OnTrack(s, c, id) && Can(s, a) && !IsCall(a)
    ensures OnTrack(Apply(s, a), c, id)
  {
    var t := Apply(s, a);
    HandshakeStep(s, a);
    MoveFrame(s, a);
    KindStays(s, a, c);
    if !s.subs[id].chClosed {
      HarmlessStep(s, a, id);
      if ByCloser(a) && a.c == c && t.closers[c].Returned? {
        ReturnsClosed(s, a, c, id);
      }
    }
  }

  lemma KindStays(s: State, a: Action, c: nat)
    requires Can(s, a) && c < |s.closers|
    ensures c < |Apply(s, a).closers| && Apply(s, a).closers[c].kind == s.closers[c].kind
  {
  }

  lemma UndisturbedKeeps(s: State, c: nat, id: nat)
    requires Handshake(s) && About(s, c, id) && Undisturbed(s, id)
    ensures Promise(s, c, id)
  {
    assert CloserOk(s, s.closers[c]);
    var inv := (t: State) => OnTrack(t, c, id);
    forall run: seq<State> |
        Runs.IsRun(Moves, run) && run[0] == s && c < |Runs.Last(run).closers| && Runs.Last(run).closers[c].Returned?
      ensures id < |Runs.Last(run).subs| && Runs.Last(run).subs[id].chClosed
    {
      forall x, y | inv(x) && Moves(x, y)
        ensures inv(y)
      {
        var a :| !IsCall(a) && Can(x, a) && y == Apply(x, a);
        OnTrackStep(x, a, c, id);
      }
      Runs.Always(Moves, inv, run);
      assert inv(Runs.Last(run));
    }
  }

  // ------------------------------------------------------ disturbed: it fails

  /** The Close under way has the subscriber: Unsubscribe finds nothing. */
  lemma LosesNow(s: State, c: nat, id: nat) returns (t: State)
    requires Handshake(s) && About(s, c, id) && id < |s.subs| && !s.subs[id].chClosed && s.closed
    ensures Moves(s, t) && c < |t.closers| && t.closers[c].Returned? && id < |t.subs| && !t.subs[id].chClosed
  {
    t := Apply(s, UnsubscribeLock(c));
  }

  /** A Close and an Unsubscribe, both about to lock b.mu, with the entry in place. */
  ghost predicate Racing(s: State, c: nat, id: nat, d: nat) {
    && Handshake(s) && About(s, c, id) && id in s.registry
    && d < |s.closers| && s.closers[d] == Want(All)
  }

  /** Close locks first, then Unsubscribe. */
  lemma LosesRace(s: State, c: nat, id: nat, d: nat) returns (t: State, u: State)
    requires Racing(s, c, id, d) && !s.locked
    ensures Moves(s, t) && Moves(t, u)
    ensures c < |u.closers| && u.closers[c].Returned? && id < |u.subs| && !u.subs[id].chClosed
  {
    assert SubOk(s, id);
    var order := SomeOrder(s.registry);
    var a := CloseLock(d, order);
    t := Apply(s, a);
    HandshakeStep(s, a);
    assert Moves(s, t);
    u := LosesNow(t, c, id);
  }

  /** Another Unsubscribe holds the lock: it can finish without the race being
      decided. */
  lemma HolderMoves(s: State, c: nat, id: nat, d: nat) returns (t: State)
    requires Racing(s, c, id, d) && s.locked
    ensures Moves(s, t) && Racing(t, c, id, d) && Measure(t) < Measure(s)
  {
    var e := SumWitness(s.closers, HoldsLock);
    var a := BusyProgress(s, e);
    t := Apply(s, a);
    HandshakeStep(s, a);
    MeasureStep(s, a);
    LockedFrame(s, a);
    MoveFrame(s, a);
  }

  /** With the lock held the registry does not change, and no call gets in. */
  lemma LockedFrame(s: State, a: Action)
    requires s.locked && Can(s, a) && !IsCall(a)
    ensures Apply(s, a).registry == s.registry && (ByCloser(a) ==> !s.closers[a.c].Want?)
  {
  }

  lemma {:induction false} Loses(s: State, c: nat, id: nat, d: nat) returns (run: seq<State>)
    requires Racing(s, c, id, d)
    ensures Runs.IsRun(Moves, run) && run[0] == s
    ensures var u := Runs.Last(run);
      c < |u.closers| && u.closers[c].Returned? && id < |u.subs| && !u.subs[id].chClosed
    decreases Measure(s)
  {
    if s.locked {
      var t := HolderMoves(s, c, id, d);
      var rest := Loses(t, c, id, d);
      run := [s] + rest;
      Runs.Prepend(Moves, s, rest);
    } else {
      var t, u := LosesRace(s, c, id, d);
      run := [s, t, u];
    }
  }

  lemma DisturbedFails(s: State, c: nat, id: nat)
    requires Handshake(s) && About(s, c, id) && !Undisturbed(s, id)
    ensures !Promise(s, c, id)
  {
    assert CloserOk(s, s.closers[c]);
    var d :| 0 <= d < |s.closers| && !Harmless(s, s.closers[d], id);
    assert CloserOk(s, s.closers[d]);
    if s.closers[d].Want? {
      var run := Loses(s, c, id, d);
      assert Runs.IsRun(Moves, run) && run[0] == s;
    } else {
      var t := LosesNow(s, c, id);
      var run := [s, t];
      assert Runs.IsRun(Moves, run) && run[0] == s && Runs.Last(run) == t;
    }
  }

  /** The exact condition, read before the call begins: in every reachable state an
      Unsubscribe about to lock b.mu can rely on the channel being closed when it
      returns, whatever the schedule, if and only if the channel is closed already,
      or every Close has returned, or comes too late for this subscriber, or is
      past it. */
  lemma PromiseIff(run: seq<State>, k: nat, c: nat, id: nat)
    requires Runs.IsRun(Next, run) && Init(run[0]) && k < |run| && About(run[k], c, id)
    ensures Promise(run[k], c, id) <==> Undisturbed(run[k], id)
  {
    ReachableHandshake(run, k);
    if Undisturbed(run[k], id) {
      UndisturbedKeeps(run[k], c, id);
    } else {
      DisturbedFails(run[k], c, id);
    }
  }
}
