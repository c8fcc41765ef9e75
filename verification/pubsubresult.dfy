/** What every run of the broker guarantees: nothing panics, calls come to an end,
    and an unsubscribed channel is closed.
 */
module PubSubResult {
  import opened Sums
  import opened PubSubProtocol
  import Runs

  // ------------------------------------------------------------- termination

  lemma {:induction false} DistinctBound(order: seq<nat>, n: nat)
    requires forall j, k | 0 <= j < k < |order| :: order[j] != order[k]
    requires forall i | i in order :: i < n
    ensures |order| <= n
  {
    if order == [] {
    } else if order[0] in order && n - 1 in order {
      var k :| 0 <= k < |order| && order[k] == n - 1;
      var rest := order[..k] + order[k + 1..];
      forall i | i in rest
        ensures i < n - 1
      {
        assert i in order && i != n - 1;
      }
      DistinctBound(rest, n - 1);
    } else {
      DistinctBound(order, n - 1);
    }
  }

  function PubWork(n: nat): Pub -> nat {
    (p: Pub) => match p.pc
      case Resting(_) => 0
      case Snapping => 6 * n + 2
      case Sending(todo) => 6 * |todo| + 1
      case Selecting(todo) => 6 * |todo|
      case Leaving(todo, _) => if todo == [] then 0 else 6 * |todo| - 2
      case Checking(todo) => if todo == [] then 0 else 6 * |todo| - 3
  }

  function CloserWork(n: nat): Closer -> nat {
    (c: Closer) => match c
      case Want(_) => 3 * n + 5
      case Loop(_, todo) => 3 * |todo| + 1
      case Waiting(_, todo) => 3 * |todo|
      case Ending(_, todo) => if todo == [] then 0 else 3 * |todo| - 1
      case Returned(_) => 0
  }

  function Queued(x: Sub): nat {
    |x.queue|
  }

  function Measure(s: State): nat {
    Sum(s.pubs, PubWork(|s.subs|)) + Sum(s.closers, CloserWork(|s.subs|)) + Sum(s.subs, Queued)
  }

  /** A publisher's step costs it more than the message it may put into a queue. */
  lemma PubWorkStep(s: State, a: Action)
    requires Handshake(s) && Can(s, a) && ByPublisher(a) && !IsCall(a)
    ensures a.g < |Apply(s, a).pubs|
    ensures PubWork(|s.subs|)(Apply(s, a).pubs[a.g]) + (if a.Accept? then 1 else 0) < PubWork(|s.subs|)(s.pubs[a.g])
  {
    if a.Snapshot? {
      DistinctBound(a.order, |s.subs|);
    }
  }

  lemma PubQueued(s: State, a: Action)
    requires Can(s, a) && ByPublisher(a) && !IsCall(a)
    ensures Sum(Apply(s, a).subs, Queued) == Sum(s.subs, Queued) + if a.Accept? then 1 else 0
  {
    var t := Apply(s, a);
    if t.subs != s.subs {
      var i := s.pubs[a.g].pc.todo[0];
      SumUpdate(s.subs, i, t.subs[i], Queued);
    }
  }

  lemma PubMeasure(s: State, a: Action)
    requires Handshake(s) && Can(s, a) && ByPublisher(a) && !IsCall(a)
    ensures Measure(Apply(s, a)) < Measure(s)
  {
    PublisherFrame(s, a);
    PubWorkStep(s, a);
    PubQueued(s, a);
    SumUpdate(s.pubs, a.g, Apply(s, a).pubs[a.g], PubWork(|s.subs|));
  }

  lemma CloserWorkStep(s: State, a: Action)
    requires Handshake(s) && Can(s, a) && ByCloser(a)
    ensures a.c < |Apply(s, a).closers|
    ensures CloserWork(|s.subs|)(Apply(s, a).closers[a.c]) < CloserWork(|s.subs|)(s.closers[a.c])
  {
    assert CloserOk(s, s.closers[a.c]);
    if a.CloseLock? {
      DistinctBound(a.order, |s.subs|);
    }
  }

  lemma CloserQueued(s: State, a: Action)
    requires Can(s, a) && ByCloser(a)
    ensures |Apply(s, a).subs| == |s.subs| && Apply(s, a).pubs == s.pubs
    ensures Apply(s, a).closers == s.closers[a.c := Apply(s, a).closers[a.c]]
    ensures Sum(Apply(s, a).subs, Queued) == Sum(s.subs, Queued)
  {
    var t := Apply(s, a);
    if t.subs != s.subs {
      var i := s.closers[a.c].todo[0];
      SumUpdate(s.subs, i, t.subs[i], Queued);
    }
  }

  lemma CloserMeasure(s: State, a: Action)
    requires Handshake(s) && Can(s, a) && ByCloser(a)
    ensures Measure(Apply(s, a)) < Measure(s)
  {
    CloserWorkStep(s, a);
    CloserQueued(s, a);
    SumUpdate(s.closers, a.c, Apply(s, a).closers[a.c], CloserWork(|s.subs|));
  }

  lemma MeasureStep(s: State, a: Action)
    requires Handshake(s) && Can(s, a) && !IsCall(a)
    ensures Measure(Apply(s, a)) < Measure(s)
  {
    if ByPublisher(a) {
      PubMeasure(s, a);
    } else if ByCloser(a) {
      CloserMeasure(s, a);
    } else {
      var t := Apply(s, a);
      SumUpdate(s.subs, a.i, t.subs[a.i], Queued);
    }
  }

  /** Nothing moves without a subscriber receiving: every Unsubscribe and every
      Close has returned, and a Publish can only be stalled on the full channel
      of an open subscriber. */
  ghost predicate Settled(s: State) {
    && (forall c | 0 <= c < |s.closers| :: s.closers[c].Returned?)
    && (forall g | 0 <= g < |s.pubs| :: s.pubs[g].pc.Resting? || Stalled(s, g))
  }

  lemma SettledIfStuck(s: State)
    requires Handshake(s) && forall t :: !MovesAlone(s, t)
    ensures Settled(s)
  {
    forall c | 0 <= c < |s.closers|
      ensures s.closers[c].Returned?
    {
      if Open(s.closers[c]) {
        var a := CloserProgress(s, c);
        assert MovesAlone(s, Apply(s, a));
      }
    }
    forall g | 0 <= g < |s.pubs|
      ensures s.pubs[g].pc.Resting? || Stalled(s, g)
    {
      if !s.pubs[g].pc.Resting? && !Stalled(s, g) {
        var a := PublisherProgress(s, g);
        assert MovesAlone(s, Apply(s, a));
      }
    }
  }

  /** From any reachable state: without new calls every schedule is finite, and
      at its end the broker is settled. */
  lemma Settles(run: seq<State>)
    requires Runs.IsRun(Moves, run) && Handshake(run[0])
    ensures |run| <= Measure(run[0]) + 1
    ensures Runs.Complete(MovesAlone, run) ==> Settled(Runs.Last(run))
  {
    forall s, t | Handshake(s) && Moves(s, t)
      ensures Handshake(t) && Measure(t) < Measure(s)
    {
      var a :| !IsCall(a) && Can(s, a) && t == Apply(s, a);
      HandshakeStep(s, a);
      MeasureStep(s, a);
    }
    Runs.Bounded(Moves, Handshake, Measure, run);
    Runs.Always(Moves, Handshake, run);
    if Runs.Complete(MovesAlone, run) {
      SettledIfStuck(Runs.Last(run));
    }
  }

  lemma ReachableHandshake(run: seq<State>, k: nat)
    requires Runs.IsRun(Next, run) && Init(run[0]) && k < |run|
    ensures Handshake(run[k])
  {
    HandshakeInit(run[0]);
    forall s, t | Handshake(s) && Next(s, t)
      ensures Handshake(t)
    {
      var b :| Can(s, b) && t == Apply(s, b);
      HandshakeStep(s, b);
    }
    Runs.Always(Next, Handshake, run);
  }

  /** Over every interleaving: nothing panics, and the channel of an unsubscribed
      subscriber is closed once its Unsubscribe has returned, unless a Close has
      it and has yet to get to it. */
  lemma EveryRun(run: seq<State>, k: nat, a: Action)
    requires Runs.IsRun(Next, run) && Init(run[0]) && k < |run| && Can(run[k], a)
    ensures Handshake(run[k]) && !Panics(run[k], a)
    ensures forall c | 0 <= c < |run[k].closers| && run[k].closers[c].Returned? && run[k].closers[c].kind.One? ::
      var id := run[k].closers[c].kind.id;
      id < |run[k].subs| && (run[k].subs[id].chClosed || CloseHas(run[k], id))
  {
    ReachableHandshake(run, k);
    NeverPanics(run[k], a);
    forall c | 0 <= c < |run[k].closers| && run[k].closers[c].Returned? && run[k].closers[c].kind.One?
      ensures var id := run[k].closers[c].kind.id;
        id < |run[k].subs| && (run[k].subs[id].chClosed || CloseHas(run[k], id))
    {
      UnsubscribeCloses(run[k], c);
    }
  }

  /** The documented "after it returns, the subscriber channel is closed" can
      fail: Close has taken the entry but not yet closed the channel. */
  lemma UnsubscribeMayReturnEarly() returns (run: seq<State>)
    ensures Runs.IsRun(Next, run) && Init(run[0])
    ensures var s := Runs.Last(run);
      |s.subs| == 1 && |s.closers| == 2 && s.closers[1] == Returned(One(0)) && !s.subs[0].chClosed
  {
    var sub := Sub(false, 0, false, [], [], []);
    var s0 := State(0, false, {}, false, [], [], []);
    var s1 := State(0, false, {0}, false, [sub], [], []);
    var s2 := s1.(closers := [Want(All)]);
    var s3 := State(0, false, {}, true, [sub], [], [Loop(All, [0])]);
    var s4 := s3.(closers := [Loop(All, [0]), Want(One(0))]);
    var s5 := s3.(closers := [Loop(All, [0]), Returned(One(0))]);
    run := [s0, s1, s2, s3, s4, s5];
    OpensAndCloses(s0, s1, s2);
    CloseTakesIt(s2, s3);
    FindsNothing(s3, s4, s5);
  }

  lemma OpensAndCloses(s: State, t: State, u: State)
    requires s == State(0, false, {}, false, [], [], [])
    requires t == State(0, false, {0}, false, [Sub(false, 0, false, [], [], [])], [], [])
    requires u == t.(closers := [Want(All)])
    ensures Next(s, t) && Next(t, u)
  {
    assert Can(s, Subscribe) && t == Apply(s, Subscribe);
    assert Can(t, CallClose) && u == Apply(t, CallClose);
  }

  lemma FindsNothing(s: State, t: State, u: State)
    requires !s.locked && s.registry == {} && |s.subs| == 1 && s.closers == [Loop(All, [0])]
    requires t == s.(closers := [Loop(All, [0]), Want(One(0))])
    requires u == s.(closers := [Loop(All, [0]), Returned(One(0))])
    ensures Next(s, t) && Next(t, u)
  {
    assert Can(s, CallUnsubscribe(0)) && t == Apply(s, CallUnsubscribe(0));
    assert Can(t, UnsubscribeLock(1)) && u == Apply(t, UnsubscribeLock(1));
  }

  lemma CloseTakesIt(s: State, t: State)
    requires !s.locked && !s.closed && s.registry == {0} && s.closers == [Want(All)]
    requires t == s.(registry := {}, closed := true, closers := [Loop(All, [0])])
    ensures Next(s, t)
  {
    assert Can(s, CloseLock(0, [0])) && t == Apply(s, CloseLock(0, [0]));
  }
}
