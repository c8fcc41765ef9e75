/** Delivery: what a subscriber accepts from one publisher is one contiguous block
    of that publisher's calls, in order.
 */
module PubSubDelivery {
  import opened PubSubProtocol
  import Runs

  /** The calls of publisher g whose message is among msgs. */
  function From(msgs: seq<Msg>, g: nat): seq<nat> {
    if msgs == [] then []
    else
      var rest := From(msgs[..|msgs| - 1], g);
      var last := msgs[|msgs| - 1];
      if last.g == g then rest + [last.k] else rest
  }

  lemma FromAppend(msgs: seq<Msg>, m: Msg, g: nat)
    ensures From(msgs + [m], g) == if m.g == g then From(msgs, g) + [m.k] else From(msgs, g)
  {
    assert (msgs + [m])[..|msgs|] == msgs;
  }

  lemma {:induction false} FromCount(msgs: seq<Msg>, g: nat, k: nat)
    ensures multiset(msgs)[Msg(g, k)] == multiset(From(msgs, g))[k]
  {
    if msgs != [] {
      var n := |msgs| - 1;
      FromCount(msgs[..n], g, k);
      assert msgs == msgs[..n] + [msgs[n]];
    }
  }

  ghost predicate Consecutive(xs: seq<nat>) {
    forall j | 0 < j < |xs| :: xs[j] == xs[j - 1] + 1
  }

  lemma {:induction false} ConsecutiveAt(xs: seq<nat>, j: nat)
    requires Consecutive(xs) && j < |xs|
    ensures xs[j] == xs[0] + j
  {
    if j > 0 {
      ConsecutiveAt(xs, j - 1);
    }
  }

  lemma {:induction false} ConsecutiveOnce(xs: seq<nat>, k: nat)
    requires Consecutive(xs) && k in xs
    ensures multiset(xs)[k] == 1
  {
    var n := |xs| - 1;
    assert xs == xs[..n] + [xs[n]];
    if k in xs[..n] {
      ConsecutiveOnce(xs[..n], k);
      var j :| 0 <= j < n && xs[j] == k;
      ConsecutiveAt(xs, j);
      ConsecutiveAt(xs, n);
    }
  }

  predicate InCall(p: Pub) {
    !p.pc.Resting? && !p.pc.Snapping?
  }

  /** The current call has yet to try subscriber i. */
  predicate Pending(p: Pub, i: nat) {
    match p.pc
    case Sending(todo) => i in todo
    case Selecting(todo) => i in todo
    case Leaving(todo, _) => todo != [] && i in todo[1..]
    case Checking(todo) => todo != [] && i in todo[1..]
    case _ => false
  }

  /** The current call failed to send to subscriber i and has to find out why. */
  predicate Refused(p: Pub, i: nat) {
    ((p.pc.Leaving? && !p.pc.sent) || p.pc.Checking?) && p.pc.todo != [] && p.pc.todo[0] == i
  }

  /** The last call before call k, if any, was the last one accepted. */
  predicate UpTo(xs: seq<nat>, k: nat) {
    xs == [] || xs[|xs| - 1] + 1 == k
  }

  /** How a publisher stands with subscriber i, of whose messages xs are its own. */
  ghost predicate Stands(p: Pub, i: nat, xs: seq<nat>, shut: bool, brokerClosed: bool, registered: bool, gone: bool) {
    && Consecutive(xs)
    && (xs != [] ==> if InCall(p) then xs[|xs| - 1] <= p.calls else xs[|xs| - 1] < p.calls)
    && (Pending(p, i) ==> UpTo(xs, p.calls))
    && (registered && !InCall(p) ==> UpTo(xs, p.calls))
    && (registered && InCall(p) && !Pending(p, i) && !Refused(p, i) ==> UpTo(xs, p.calls + 1))
    && (Refused(p, i) ==> shut || brokerClosed)
    && (InCall(p) && i in p.snap && !Pending(p, i) && !Refused(p, i) ==> p.calls in xs || gone)
    && (p.pc == Resting(Nil) && i in p.snap ==> p.calls > 0 && (p.calls - 1 in xs || gone))
  }

  /** An Unsubscribe of subscriber i has taken b.mu. */
  ghost predicate Unsubscribed(s: State, i: nat) {
    exists c :: 0 <= c < |s.closers| && s.closers[c].kind == One(i) && !s.closers[c].Want?
  }

  /** Until Close begins, only an Unsubscribe closes a subscriber. */
  ghost predicate ClosedBy(s: State, i: nat)
    requires i < |s.subs|
  {
    s.subs[i].closed && !s.closed ==> Unsubscribed(s, i)
  }

  ghost predicate Track(s: State, g: nat, i: nat)
    requires g < |s.pubs| && i < |s.subs|
  {
    Stands(s.pubs[g], i, From(s.subs[i].accepted, g), s.subs[i].closed, s.closed, i in s.registry, Unsubscribed(s, i))
  }

  ghost predicate TodoTidy(p: Pub) {
    InCall(p) ==>
      && (forall j, k | 0 <= j < k < |p.pc.todo| :: p.pc.todo[j] != p.pc.todo[k])
      && forall i | i in p.pc.todo :: i in p.snap
  }

  ghost predicate Tidy(s: State, p: Pub) {
    TodoOk(s, p.snap) && TodoTidy(p)
  }

  ghost predicate Delivery(s: State) {
    && Handshake(s)
    && (forall g | 0 <= g < |s.pubs| :: Tidy(s, s.pubs[g]))
    && (forall i | 0 <= i < |s.subs| :: ClosedBy(s, i))
    && forall g, i | 0 <= g < |s.pubs| && 0 <= i < |s.subs| :: Track(s, g, i)
  }

  /** Cutting the head off a list of distinct entries. */
  lemma HeadOnce(todo: seq<nat>)
    requires todo != []
    requires forall j, k | 0 <= j < k < |todo| :: todo[j] != todo[k]
    ensures todo[0] !in todo[1..]
    ensures forall i :: i in todo <==> i == todo[0] || i in todo[1..]
  {
    assert todo == [todo[0]] + todo[1..];
  }

  /** The loop of a call goes on with the same list or the rest of it. */
  predicate Onward(p: Pub, p': Pub) {
    && p'.snap == p.snap
    && (InCall(p') ==> InCall(p))
    && (InCall(p') ==> p'.pc.todo == p.pc.todo || (p.pc.todo != [] && p'.pc.todo == p.pc.todo[1..]))
  }

  lemma TidyMove(p: Pub, p': Pub)
    requires TodoTidy(p) && Onward(p, p')
    ensures TodoTidy(p')
  {
  }

  lemma PubMove(s: State, a: Action)
    requires Can(s, a) && ByPublisher(a) && !a.Snapshot?
    ensures |Apply(s, a).subs| == |s.subs| && Onward(s.pubs[a.g], Apply(s, a).pubs[a.g])
  {
  }

  lemma TidyStep(s: State, a: Action)
    requires Delivery(s) && Can(s, a) && ByPublisher(a)
    ensures Tidy(Apply(s, a), Apply(s, a).pubs[a.g])
  {
    assert Tidy(s, s.pubs[a.g]);
    if !a.Snapshot? {
      PubMove(s, a);
      TidyMove(s.pubs[a.g], Apply(s, a).pubs[a.g]);
    }
  }

  /** An Unsubscribe does not forget that it took the lock. */
  lemma UnsubscribedStays(s: State, a: Action, i: nat)
    requires Can(s, a) && Unsubscribed(s, i)
    ensures Unsubscribed(Apply(s, a), i)
  {
    var c :| 0 <= c < |s.closers| && s.closers[c].kind == One(i) && !s.closers[c].Want?;
    var t := Apply(s, a);
    assert c < |t.closers| && t.closers[c].kind == One(i) && !t.closers[c].Want?;
  }

  /** Who closes a subscriber has it on its list: an Unsubscribe, or Close. */
  lemma ClosedByStep(s: State, a: Action, i: nat)
    requires Delivery(s) && Can(s, a) && i < |s.subs|
    ensures i < |Apply(s, a).subs| && ClosedBy(Apply(s, a), i)
  {
    var t := Apply(s, a);
    assert ClosedBy(s, i);
    if t.subs[i].closed && !s.subs[i].closed {
      ShutBy(s, a, i);
      var x := s.closers[a.c];
      assert CloserOk(s, x) && x.todo[0] in x.todo;
      if x.kind.One? {
        assert t.closers[a.c].kind == One(i) && !t.closers[a.c].Want?;
      }
    } else if s.subs[i].closed && !s.closed {
      UnsubscribedStays(s, a, i);
    }
  }

  lemma ShutBy(s: State, a: Action, i: nat)
    requires Can(s, a) && i < |s.subs| && Apply(s, a).subs[i].closed && !s.subs[i].closed
    ensures a.Shut? && s.closers[a.c].todo[0] == i && s.closers[a.c].Loop?
    ensures Apply(s, a).closers == s.closers[a.c := Waiting(s.closers[a.c].kind, s.closers[a.c].todo)]
    ensures Apply(s, a).closed == s.closed
  {
  }

  lemma SnapshotTrack(s: State, g: nat, order: seq<nat>, i: nat)
    requires Delivery(s) && Can(s, Snapshot(g, order)) && i < |s.subs|
    ensures i < |Apply(s, Snapshot(g, order)).subs| && Track(Apply(s, Snapshot(g, order)), g, i)
  {
    assert Track(s, g, i);
  }

  lemma BeginStands(p: Pub, pc: Pc, i: nat, xs: seq<nat>, shut: bool, brokerClosed: bool, registered: bool, gone: bool)
    requires Stands(p, i, xs, shut, brokerClosed, registered, gone)
    requires p.pc.Sending? && p.pc.todo != [] && (registered ==> !shut)
    requires pc == Selecting(p.pc.todo) || (pc == Checking(p.pc.todo) && (i == p.pc.todo[0] ==> shut))
    requires forall j :: j in p.pc.todo <==> j == p.pc.todo[0] || j in p.pc.todo[1..]
    ensures Stands(p.(pc := pc), i, xs, shut, brokerClosed, registered, gone)
  {
  }

  lemma ReturnStands(p: Pub, r: Outcome, i: nat, xs: seq<nat>,
                     shut: bool, brokerClosed: bool, registered: bool, gone: bool)
    requires Stands(p, i, xs, shut, brokerClosed, registered, gone) && (brokerClosed ==> !registered)
    requires (p.pc == Sending([]) && r == Nil) || (p.pc.Checking? && r == ErrClosed && brokerClosed)
    ensures Stands(p.(pc := Resting(r), calls := p.calls + 1), i, xs, shut, brokerClosed, registered, gone)
  {
  }

  /** A publisher's step leaves alone what else Track reads. */
  lemma TrackFrom(s: State, t: State, g: nat, i: nat, p: Pub, xs: seq<nat>)
    requires g < |t.pubs| && i < |s.subs| == |t.subs|
    requires t.closers == s.closers && t.registry == s.registry && t.closed == s.closed
    requires t.subs[i].closed == s.subs[i].closed && t.pubs[g] == p && From(t.subs[i].accepted, g) == xs
    requires Stands(p, i, xs, s.subs[i].closed, s.closed, i in s.registry, Unsubscribed(s, i))
    ensures Track(t, g, i)
  {
    assert Unsubscribed(t, i) == Unsubscribed(s, i);
  }

  lemma BeginFrame(s: State, g: nat, i: nat)
    requires Can(s, BeginSend(g)) && i < |s.subs|
    ensures var t := Apply(s, BeginSend(g));
      var p := s.pubs[g];
      var todo := p.pc.todo;
      && |t.subs| == |s.subs| && |t.pubs| == |s.pubs|
      && t.closers == s.closers && t.closed == s.closed && t.registry == s.registry
      && t.subs[i].accepted == s.subs[i].accepted && t.subs[i].closed == s.subs[i].closed
      && t.pubs[g] == if todo == [] then p.(pc := Resting(Nil), calls := p.calls + 1)
           else p.(pc := if s.subs[todo[0]].closed then Checking(todo) else Selecting(todo))
  {
  }

  /** What Delivery says about publisher g and subscriber i. */
  ghost predicate Pair(s: State, g: nat, i: nat)
    requires g < |s.pubs| && i < |s.subs|
  {
    && Track(s, g, i) && Tidy(s, s.pubs[g]) && ClosedBy(s, i)
    && (i in s.registry ==> !s.subs[i].closed && !s.closed)
  }

  lemma PairOf(s: State, g: nat, i: nat)
    requires Delivery(s) && g < |s.pubs| && i < |s.subs|
    ensures Pair(s, g, i)
  {
    assert Track(s, g, i) && Tidy(s, s.pubs[g]) && ClosedBy(s, i) && SubOk(s, i);
  }

  lemma BeginTrack(s: State, g: nat, i: nat)
    requires Delivery(s) && Can(s, BeginSend(g)) && i < |s.subs|
    ensures i < |Apply(s, BeginSend(g)).subs| && Track(Apply(s, BeginSend(g)), g, i)
  {
    var t, p := Apply(s, BeginSend(g)), s.pubs[g];
    var xs := From(s.subs[i].accepted, g);
    BeginFrame(s, g, i);
    PairOf(s, g, i);
    BeginStep(s, g, i, xs, t.pubs[g]);
    TrackFrom(s, t, g, i, t.pubs[g], xs);
  }

  lemma BeginStep(s: State, g: nat, i: nat, xs: seq<nat>, p': Pub)
    requires Can(s, BeginSend(g)) && i < |s.subs| && Pair(s, g, i) && xs == From(s.subs[i].accepted, g)
    requires var p := s.pubs[g];
      var todo := p.pc.todo;
      p' == if todo == [] then p.(pc := Resting(Nil), calls := p.calls + 1)
        else p.(pc := if s.subs[todo[0]].closed then Checking(todo) else Selecting(todo))
    ensures Stands(p', i, xs, s.subs[i].closed, s.closed, i in s.registry, Unsubscribed(s, i))
  {
    var p := s.pubs[g];
    if p.pc.todo != [] {
      HeadOnce(p.pc.todo);
      BeginStands(p, p'.pc, i, xs, s.subs[i].closed, s.closed, i in s.registry, Unsubscribed(s, i));
    } else {
      ReturnStands(p, Nil, i, xs, s.subs[i].closed, s.closed, i in s.registry, Unsubscribed(s, i));
    }
  }

  lemma AcceptStands(p: Pub, i: nat, xs: seq<nat>, shut: bool, brokerClosed: bool, registered: bool, gone: bool)
    requires Stands(p, i, xs, shut, brokerClosed, registered, gone)
    requires p.pc.Selecting? && p.pc.todo != []
    requires p.pc.todo[0] !in p.pc.todo[1..]
    requires forall j :: j in p.pc.todo <==> j == p.pc.todo[0] || j in p.pc.todo[1..]
    ensures Stands(p.(pc := Leaving(p.pc.todo, true)), i,
              if i == p.pc.todo[0] then xs + [p.calls] else xs, shut, brokerClosed, registered, gone)
  {
    if i == p.pc.todo[0] {
      assert Pending(p, i);
      assert (xs + [p.calls])[|xs|] == p.calls;
    }
  }

  lemma AcceptFrame(s: State, a: Action, i: nat)
    requires Can(s, a) && (a.Accept? || a.Handoff?) && i < |s.subs|
    ensures var t, p := Apply(s, a), s.pubs[a.g];
      && |t.subs| == |s.subs| && |t.pubs| == |s.pubs|
      && t.closers == s.closers && t.closed == s.closed && t.registry == s.registry
      && t.subs[i].closed == s.subs[i].closed && t.pubs[a.g] == p.(pc := Leaving(p.pc.todo, true))
      && t.subs[i].accepted
         == if i == p.pc.todo[0] then s.subs[i].accepted + [Msg(a.g, p.calls)] else s.subs[i].accepted
  {
  }

  lemma AcceptTrack(s: State, a: Action, i: nat)
    requires Delivery(s) && Can(s, a) && (a.Accept? || a.Handoff?) && i < |s.subs|
    ensures i < |Apply(s, a).subs| && Track(Apply(s, a), a.g, i)
  {
    var t, p := Apply(s, a), s.pubs[a.g];
    assert Track(s, a.g, i) && Tidy(s, p);
    HeadOnce(p.pc.todo);
    FromAppend(s.subs[i].accepted, Msg(a.g, p.calls), a.g);
    AcceptFrame(s, a, i);
    AcceptStands(p, i, From(s.subs[i].accepted, a.g), s.subs[i].closed, s.closed, i in s.registry, Unsubscribed(s, i));
    TrackFrom(s, t, a.g, i, t.pubs[a.g], From(t.subs[i].accepted, a.g));
  }

  lemma AfterStands(p: Pub, pc: Pc, i: nat, xs: seq<nat>, shut: bool, brokerClosed: bool, registered: bool, gone: bool)
    requires Stands(p, i, xs, shut, brokerClosed, registered, gone) && (registered ==> !shut && !brokerClosed)
    requires shut && !brokerClosed ==> gone
    requires InCall(p) && p.pc.todo != []
    requires p.pc.todo[0] !in p.pc.todo[1..]
    requires forall j :: j in p.pc.todo <==> j == p.pc.todo[0] || j in p.pc.todo[1..]
    requires
      || (p.pc.Selecting? && pc == Leaving(p.pc.todo, false) && (i == p.pc.todo[0] ==> shut || brokerClosed))
      || (p.pc.Leaving? && pc == if p.pc.sent then Sending(p.pc.todo[1..]) else Checking(p.pc.todo))
      || (p.pc.Checking? && pc == Sending(p.pc.todo[1..]) && !brokerClosed)
    ensures Stands(p.(pc := pc), i, xs, shut, brokerClosed, registered, gone)
  {
  }

  function After(s: State, a: Action): Pub
    requires Can(s, a) && (a.GiveUp? || a.Leave? || a.Check?)
  {
    var p := s.pubs[a.g];
    if a.Check? && s.closed then p.(pc := Resting(ErrClosed), calls := p.calls + 1)
    else p.(pc :=
      match a
      case GiveUp(_) => Leaving(p.pc.todo, false)
      case Leave(_) => if p.pc.sent then Sending(p.pc.todo[1..]) else Checking(p.pc.todo)
      case Check(_) => Sending(p.pc.todo[1..]))
  }

  lemma AfterFrame(s: State, a: Action, i: nat)
    requires Can(s, a) && (a.GiveUp? || a.Leave? || a.Check?) && i < |s.subs|
    ensures var t := Apply(s, a);
      && |t.subs| == |s.subs| && |t.pubs| == |s.pubs|
      && t.closers == s.closers && t.closed == s.closed && t.registry == s.registry
      && t.subs[i].accepted == s.subs[i].accepted && t.subs[i].closed == s.subs[i].closed
      && t.pubs[a.g] == After(s, a)
  {
  }

  lemma AfterStep(s: State, a: Action, i: nat, xs: seq<nat>)
    requires Can(s, a) && (a.GiveUp? || a.Leave? || a.Check?) && PubOk(s, s.pubs[a.g])
    requires i < |s.subs| && Pair(s, a.g, i) && xs == From(s.subs[i].accepted, a.g)
    ensures Stands(After(s, a), i, xs, s.subs[i].closed, s.closed, i in s.registry, Unsubscribed(s, i))
  {
    var p := s.pubs[a.g];
    HeadOnce(p.pc.todo);
    if a.Check? && s.closed {
      ReturnStands(p, ErrClosed, i, xs, s.subs[i].closed, s.closed, i in s.registry, Unsubscribed(s, i));
    } else {
      AfterStands(p, After(s, a).pc, i, xs, s.subs[i].closed, s.closed, i in s.registry, Unsubscribed(s, i));
    }
  }

  lemma AfterTrack(s: State, a: Action, i: nat)
    requires Delivery(s) && Can(s, a) && (a.GiveUp? || a.Leave? || a.Check?) && i < |s.subs|
    ensures i < |Apply(s, a).subs| && Track(Apply(s, a), a.g, i)
  {
    AfterFrame(s, a, i);
    PairOf(s, a.g, i);
    assert PubOk(s, s.pubs[a.g]);
    AfterStep(s, a, i, From(s.subs[i].accepted, a.g));
    TrackFrom(s, Apply(s, a), a.g, i, After(s, a), From(s.subs[i].accepted, a.g));
  }

  /** A step of g itself. */
  lemma OwnTrack(s: State, a: Action, i: nat)
    requires Delivery(s) && Can(s, a) && ByPublisher(a) && i < |s.subs|
    ensures i < |Apply(s, a).subs| && Track(Apply(s, a), a.g, i)
  {
    if a.Snapshot? {
      SnapshotTrack(s, a.g, a.order, i);
    } else if a.BeginSend? {
      BeginTrack(s, a.g, i);
    } else if a.Accept? || a.Handoff? {
      AcceptTrack(s, a, i);
    } else if a.CallPublish? {
      assert Track(s, a.g, i);
    } else {
      AfterTrack(s, a, i);
    }
  }

  lemma OtherFrame(s: State, a: Action, g: nat, i: nat)
    requires Can(s, a) && g < |s.pubs| && i < |s.subs| && (ByPublisher(a) ==> a.g != g)
    ensures var t := Apply(s, a);
      && |s.subs| <= |t.subs|
      && (s.closed ==> t.closed) && (s.subs[i].closed ==> t.subs[i].closed) && (i in t.registry ==> i in s.registry)
  {
  }

  lemma OtherAccepted(s: State, a: Action, i: nat)
    requires Can(s, a) && i < |s.subs|
    ensures i < |Apply(s, a).subs|
    ensures var now := Apply(s, a).subs[i].accepted;
      || now == s.subs[i].accepted
      || (ByPublisher(a) && now == s.subs[i].accepted + [Msg(a.g, s.pubs[a.g].calls)])
  {
  }

  lemma StandsKept(p: Pub, i: nat, xs: seq<nat>, shut: bool, brokerClosed: bool, registered: bool, gone: bool,
                   shut': bool, brokerClosed': bool, registered': bool, gone': bool)
    requires Stands(p, i, xs, shut, brokerClosed, registered, gone)
    requires (shut ==> shut') && (brokerClosed ==> brokerClosed') && (registered' ==> registered) && (gone ==> gone')
    ensures Stands(p, i, xs, shut', brokerClosed', registered', gone')
  {
  }

  /** A step of anyone else: what g had accepted stays, subscribers only close and
      only leave the registry. */
  lemma OtherTrack(s: State, a: Action, g: nat, i: nat)
    requires Delivery(s) && Can(s, a) && g < |s.pubs| && i < |s.subs|
    requires ByPublisher(a) ==> a.g != g
    ensures g < |Apply(s, a).pubs| && i < |Apply(s, a).subs| && Track(Apply(s, a), g, i)
  {
    var t := Apply(s, a);
    assert Track(s, g, i);
    OtherPub(s, a, g);
    OtherFrame(s, a, g, i);
    OtherAccepted(s, a, i);
    if Unsubscribed(s, i) {
      UnsubscribedStays(s, a, i);
    }
    if t.subs[i].accepted != s.subs[i].accepted {
      FromAppend(s.subs[i].accepted, Msg(a.g, s.pubs[a.g].calls), g);
    }
    StandsKept(s.pubs[g], i, From(s.subs[i].accepted, g),
      s.subs[i].closed, s.closed, i in s.registry, Unsubscribed(s, i),
      t.subs[i].closed, t.closed, i in t.registry, Unsubscribed(t, i));
  }

  lemma OtherTidy(s: State, a: Action, g: nat)
    requires Delivery(s) && Can(s, a) && g < |s.pubs| && (ByPublisher(a) ==> a.g != g)
    ensures g < |Apply(s, a).pubs| && Tidy(Apply(s, a), Apply(s, a).pubs[g])
  {
    assert Tidy(s, s.pubs[g]);
    OtherPub(s, a, g);
  }

  lemma OtherPub(s: State, a: Action, g: nat)
    requires Can(s, a) && g < |s.pubs| && (ByPublisher(a) ==> a.g != g)
    ensures var t := Apply(s, a);
      |t.pubs| == |s.pubs| && |s.subs| <= |t.subs| && t.pubs[g] == s.pubs[g]
  {
  }

  /** A subscriber that has just been added has no messages yet. */
  lemma NewTrack(s: State, a: Action, g: nat, i: nat)
    requires Delivery(s) && Can(s, a) && g < |s.pubs| && |s.subs| <= i < |Apply(s, a).subs|
    ensures g < |Apply(s, a).pubs| && Track(Apply(s, a), g, i)
  {
    assert a.Subscribe? && i == |s.subs|;
    assert Tidy(s, s.pubs[g]) && PubOk(s, s.pubs[g]);
    var p := s.pubs[g];
    if InCall(p) && p.pc.todo != [] {
      HeadOnce(p.pc.todo);
    }
    assert i !in p.snap && !Pending(p, i) && !Refused(p, i);
  }

  lemma TrackStep(s: State, a: Action, g: nat, i: nat)
    requires Delivery(s) && Can(s, a) && g < |s.pubs| && i < |Apply(s, a).subs|
    ensures g < |Apply(s, a).pubs| && Track(Apply(s, a), g, i)
  {
    if i >= |s.subs| {
      NewTrack(s, a, g, i);
    } else if ByPublisher(a) && g == a.g {
      PublisherFrame(s, a);
      OwnTrack(s, a, i);
    } else {
      OtherTrack(s, a, g, i);
    }
  }

  lemma DeliveryStep(s: State, a: Action)
    requires Delivery(s) && Can(s, a)
    ensures Delivery(Apply(s, a))
  {
    var t := Apply(s, a);
    HandshakeStep(s, a);
    assert |t.pubs| == |s.pubs|;
    forall g | 0 <= g < |t.pubs|
      ensures Tidy(t, t.pubs[g])
    {
      if ByPublisher(a) && g == a.g {
        TidyStep(s, a);
      } else {
        OtherTidy(s, a, g);
      }
    }
    forall i | 0 <= i < |t.subs|
      ensures ClosedBy(t, i)
    {
      if i < |s.subs| {
        ClosedByStep(s, a, i);
      }
    }
    forall g, i | 0 <= g < |t.pubs| && 0 <= i < |t.subs|
      ensures Track(t, g, i)
    {
      TrackStep(s, a, g, i);
    }
  }

  lemma EveryDelivery(run: seq<State>, n: nat)
    requires Runs.IsRun(Next, run) && Init(run[0]) && n < |run|
    ensures Delivery(run[n])
  {
    HandshakeInit(run[0]);
    forall s, t | Delivery(s) && Next(s, t)
      ensures Delivery(t)
    {
      var a :| Can(s, a) && t == Apply(s, a);
      DeliveryStep(s, a);
    }
    Runs.Always(Next, Delivery, run);
  }

  /** Delivery over every interleaving of any publishers, subscribers and closers:
      the messages of publisher g that subscriber i has received, and those it
      has accepted, are each the messages of consecutive calls, in order and
      without a gap, and the first are the beginning of the second. */
  lemma GapFree(run: seq<State>, n: nat, g: nat, i: nat)
    requires Runs.IsRun(Next, run) && Init(run[0]) && n < |run|
    requires g < |run[n].pubs| && i < |run[n].subs|
    ensures Delivery(run[n])
    ensures Consecutive(From(run[n].subs[i].accepted, g))
    ensures run[n].subs[i].received <= run[n].subs[i].accepted
    ensures From(run[n].subs[i].received, g) <= From(run[n].subs[i].accepted, g)
  {
    EveryDelivery(run, n);
    var s := run[n];
    assert Track(s, g, i) && SubOk(s, i);
    FromPrefix(s.subs[i].received, s.subs[i].queue, g);
  }

  lemma {:induction false} FromPrefix(xs: seq<Msg>, ys: seq<Msg>, g: nat)
    ensures From(xs, g) <= From(xs + ys, g)
  {
    if ys == [] {
      assert xs + ys == xs;
    } else {
      var m := |ys| - 1;
      FromPrefix(xs, ys[..m], g);
      assert xs + ys == (xs + ys[..m]) + [ys[m]];
      FromAppend(xs + ys[..m], ys[m], g);
    }
  }

  /** If Publish returned nil, each subscriber of its snapshot accepted exactly one
      copy of the message, or an Unsubscribe of that subscriber has taken it away;
      Close is no excuse. */
  lemma NilMeansDelivered(s: State, g: nat, i: nat)
    requires Delivery(s) && g < |s.pubs| && s.pubs[g].pc == Resting(Nil) && i in s.pubs[g].snap
    ensures i < |s.subs| && s.pubs[g].calls > 0
    ensures Unsubscribed(s, i) || multiset(s.subs[i].accepted)[Msg(g, s.pubs[g].calls - 1)] == 1
  {
    assert Tidy(s, s.pubs[g]);
    assert Track(s, g, i);
    var xs := From(s.subs[i].accepted, g);
    var k := s.pubs[g].calls - 1;
    if k in xs {
      FromCount(s.subs[i].accepted, g, k);
      ConsecutiveOnce(xs, k);
    }
  }

  // ------------------------------------------- the answer of a whole call

  /** The snapshot decides: a closed broker refuses the call and nobody gets its
      message; otherwise its subscribers are those registered at this moment. */
  lemma SnapshotOutcome(s: State, g: nat, order: seq<nat>)
    requires Can(s, Snapshot(g, order))
    ensures var t := Apply(s, Snapshot(g, order));
      && t.subs == s.subs && |t.pubs| == |s.pubs|
      && (t.pubs[g].pc == Resting(ErrClosed) <==> s.closed)
      && (t.pubs[g].pc.Sending? <==> !s.closed)
      && (t.pubs[g].pc.Sending? ==> t.pubs[g].pc.todo == t.pubs[g].snap && Lists(t.pubs[g].snap, s.registry))
  {
  }

  /** The broker is closed, and publisher g has got no answer but ErrClosed since its
      call number k, and nothing to subscriber i beyond what it had sent before. */
  ghost predicate Shunned(s: State, g: nat, k: nat, i: nat, sent: seq<nat>) {
    && s.closed && g < |s.pubs| && i < |s.subs|
    && From(s.subs[i].accepted, g) == sent
    && k <= s.pubs[g].calls
    && (s.pubs[g].pc.Snapping? || (s.pubs[g].pc.Resting? && (k < s.pubs[g].calls ==> s.pubs[g].pc.last == ErrClosed)))
  }

  lemma ShunnedStep(s: State, a: Action, g: nat, k: nat, i: nat, sent: seq<nat>)
    requires Shunned(s, g, k, i, sent) && Can(s, a)
    ensures Shunned(Apply(s, a), g, k, i, sent)
  {
    OtherAccepted(s, a, i);
    if ByPublisher(a) && a.g != g {
      FromAppend(s.subs[i].accepted, Msg(a.g, s.pubs[a.g].calls), g);
    }
    if !ByPublisher(a) || a.g != g {
      OtherPub(s, a, g);
    }
  }

  /** Over every interleaving: each call of Publish that begins on a closed broker
      returns ErrClosed and sends nothing to anyone. */
  lemma ClosedRefuses(run: seq<State>, j: nat, n: nat, g: nat, i: nat)
    requires Runs.IsRun(Next, run) && j <= n < |run| && run[j].closed
    requires g < |run[j].pubs| && run[j].pubs[g].pc.Resting? && i < |run[j].subs|
    ensures g < |run[n].pubs| && run[j].pubs[g].calls <= run[n].pubs[g].calls
    ensures run[n].pubs[g].pc.Resting? || run[n].pubs[g].pc.Snapping?
    ensures run[n].pubs[g].pc.Resting? && run[n].pubs[g].calls > run[j].pubs[g].calls ==>
      run[n].pubs[g].pc == Resting(ErrClosed)
    ensures i < |run[n].subs| && From(run[n].subs[i].accepted, g) == From(run[j].subs[i].accepted, g)
  {
    var k, sent := run[j].pubs[g].calls, From(run[j].subs[i].accepted, g);
    var inv := (s: State) => Shunned(s, g, k, i, sent);
    forall s, t | inv(s) && Next(s, t)
      ensures inv(t)
    {
      var a :| Can(s, a) && t == Apply(s, a);
      ShunnedStep(s, a, g, k, i, sent);
    }
    assert Runs.IsRun(Next, run[j..]);
    Runs.Always(Next, inv, run[j..]);
    assert inv(run[j..][n - j]);
  }

  /** Publisher g's call number k has subscriber i among those it sends to, or will
      have, unless an Unsubscribe took i away or the broker is closed before. */
  ghost predicate Covered(s: State, g: nat, k: nat, i: nat) {
    && g < |s.pubs| && k <= s.pubs[g].calls
    && (s.pubs[g].calls == k ==>
          && !s.pubs[g].pc.Resting?
          && if s.pubs[g].pc.Snapping? then i in s.registry || s.closed || Unsubscribed(s, i)
             else i in s.pubs[g].snap || Unsubscribed(s, i))
    && (s.pubs[g].calls == k + 1 && s.pubs[g].pc == Resting(Nil) ==> i in s.pubs[g].snap || Unsubscribed(s, i))
  }

  /** Who leaves the registry was taken by an Unsubscribe or by Close. */
  lemma LeavesRegistry(s: State, a: Action, i: nat)
    requires Can(s, a) && i in s.registry && i !in Apply(s, a).registry
    ensures Apply(s, a).closed || Unsubscribed(Apply(s, a), i)
  {
    if a.UnsubscribeLock? {
      assert Apply(s, a).closers[a.c].kind == One(i) && !Apply(s, a).closers[a.c].Want?;
    }
  }

  /** What a step makes of a publisher's call, seen from outside. */
  lemma CallFrame(s: State, a: Action, g: nat)
    requires Can(s, a) && g < |s.pubs|
    ensures var t := Apply(s, a);
      && |t.pubs| == |s.pubs| && s.pubs[g].calls <= t.pubs[g].calls
      && (s.closed ==> t.closed)
      && (s.pubs[g].pc.Resting? ==>
            t.pubs[g].calls == s.pubs[g].calls && (t.pubs[g].pc.Snapping? || t.pubs[g] == s.pubs[g]))
      && (s.pubs[g].pc.Snapping? ==>
            || t.pubs[g] == s.pubs[g]
            || (t.pubs[g].pc == Resting(ErrClosed) && t.pubs[g].calls == s.pubs[g].calls + 1)
            || (InCall(t.pubs[g]) && t.pubs[g].calls == s.pubs[g].calls && !s.closed
                && t.closers == s.closers && forall i | i in s.registry :: i in t.pubs[g].snap))
      && (InCall(s.pubs[g]) ==>
            && t.pubs[g].snap == s.pubs[g].snap
            && !t.pubs[g].pc.Snapping?
            && t.pubs[g].calls == s.pubs[g].calls + if t.pubs[g].pc.Resting? then 1 else 0)
  {
  }

  lemma CoveredStep(s: State, a: Action, g: nat, k: nat, i: nat)
    requires Covered(s, g, k, i) && Can(s, a)
    ensures Covered(Apply(s, a), g, k, i)
  {
    var t := Apply(s, a);
    CallFrame(s, a, g);
    if Unsubscribed(s, i) {
      UnsubscribedStays(s, a, i);
    } else if i in s.registry && i !in t.registry {
      LeavesRegistry(s, a, i);
    }
  }

  /** Over every interleaving: if a call of Publish returns nil, then every subscriber
      that was registered when it began accepted exactly one copy of its message or
      was unsubscribed in the meantime. */
  lemma NilReachesAll(run: seq<State>, j: nat, n: nat, g: nat, i: nat)
    requires Runs.IsRun(Next, run) && Init(run[0]) && j < n < |run|
    requires g < |run[j].pubs| && run[j].pubs[g].pc.Snapping? && i in run[j].registry
    requires g < |run[n].pubs| && run[n].pubs[g].pc == Resting(Nil)
    requires run[n].pubs[g].calls == run[j].pubs[g].calls + 1
    ensures i < |run[n].subs|
    ensures Unsubscribed(run[n], i) || multiset(run[n].subs[i].accepted)[Msg(g, run[j].pubs[g].calls)] == 1
  {
    var k := run[j].pubs[g].calls;
    var inv := (s: State) => Covered(s, g, k, i) && i < |s.subs|;
    forall s, t | inv(s) && Next(s, t)
      ensures inv(t)
    {
      var a :| Can(s, a) && t == Apply(s, a);
      CoveredStep(s, a, g, k, i);
      OtherAccepted(s, a, i);
    }
    EveryDelivery(run, j);
    EveryDelivery(run, n);
    assert Runs.IsRun(Next, run[j..]);
    Runs.Always(Next, inv, run[j..]);
    assert inv(run[j..][n - j]);
    if i in run[n].pubs[g].snap {
      NilMeansDelivered(run[n], g, i);
    }
  }
}
