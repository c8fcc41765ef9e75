/** The Broker struct of examples/pubsub/broker.go. Its subscribers are kept in a
    table by id; the goroutines that call it are kept beside it. Publish,
    Unsubscribe and Close are run to their end among all other calls under way,
    by an arbitrary scheduler.
 */
module PubSub {
  import opened Sums
  import opened PubSubProtocol
  import opened PubSubResult
  import opened PubSubDelivery
  import opened PubSubRace

  /** Publisher p is in its call number k, or has just returned from it. */
  predicate InPublish(p: Pub, k: nat) {
    if p.pc.Resting? then p.calls == k + 1 && (p.pc.last == Nil || p.pc.last == ErrClosed) else p.calls == k
  }

  lemma PublishGoesOn(s: State, a: Action, g: nat, k: nat)
    requires Can(s, a) && !IsCall(a) && g < |s.pubs| && !s.pubs[g].pc.Resting? && InPublish(s.pubs[g], k)
    ensures g < |Apply(s, a).pubs| && InPublish(Apply(s, a).pubs[g], k)
  {
    if !ByPublisher(a) || a.g != g {
      OtherPub(s, a, g);
    }
  }

  lemma CoveredStays(s: State, a: Action, g: nat, k: nat, members: set<nat>)
    requires Can(s, a) && forall i | i in members :: i < |s.subs| && Covered(s, g, k, i)
    ensures forall i | i in members :: i < |Apply(s, a).subs| && Covered(Apply(s, a), g, k, i)
  {
    forall i | i in members
      ensures i < |Apply(s, a).subs| && Covered(Apply(s, a), g, k, i)
    {
      CoveredStep(s, a, g, k, i);
      OtherAccepted(s, a, i);
    }
  }

  lemma Delivered(s: State, g: nat, k: nat, members: set<nat>)
    requires Delivery(s) && g < |s.pubs| && s.pubs[g].pc == Resting(Nil) && s.pubs[g].calls == k + 1
    requires forall i | i in members :: i < |s.subs| && Covered(s, g, k, i)
    ensures forall i | i in members || i in s.pubs[g].snap ::
      i < |s.subs| && (Unsubscribed(s, i) || multiset(s.subs[i].accepted)[Msg(g, k)] == 1)
  {
    forall i | i in members || i in s.pubs[g].snap
      ensures i < |s.subs| && (Unsubscribed(s, i) || multiset(s.subs[i].accepted)[Msg(g, k)] == 1)
    {
      assert i in members ==> Covered(s, g, k, i);
      if i in s.pubs[g].snap {
        NilMeansDelivered(s, g, i);
      }
    }
  }

  /** Whoever has locked b.mu in Close leaves the broker closed. */
  lemma CloseGoesOn(s: State, a: Action, c: nat)
    requires Can(s, a) && !IsCall(a) && c < |s.closers|
    requires s.closers[c].kind == All && (!s.closers[c].Want? ==> s.closed)
    ensures c < |Apply(s, a).closers| && (!Apply(s, a).closers[c].Want? ==> Apply(s, a).closed)
  {
    MoveFrame(s, a);
  }

  /** On a closed broker an open channel is on the list of some closer. */
  lemma OpenIsOwned(s: State, i: nat)
    requires Handshake(s) && s.closed && i < |s.subs| && !s.subs[i].chClosed
    ensures exists d :: 0 <= d < |s.closers| && Busy(s.closers[d]) && i in s.closers[d].todo
  {
    assert SubOk(s, i);
    var d := SumWitness(s.closers, Owns(i));
    assert Busy(s.closers[d]) && i in s.closers[d].todo;
  }

  class Broker {
    const buffer: nat
    var locked: bool
    var registry: set<nat>
    var closed: bool
    var subs: seq<Sub>
    var pubs: seq<Pub>
    var closers: seq<Closer>

    ghost function View(): State
      reads this
    {
      State(buffer, locked, registry, closed, subs, pubs, closers)
    }

    constructor (buffer: nat, publishers: nat)
      ensures this.buffer == buffer && |pubs| == publishers
      ensures Init(View()) && Handshake(View())
    {
      this.buffer := buffer;
      locked, closed, registry, subs, closers := false, false, {}, [], [];
      pubs := seq(publishers, _ => Pub(Resting(NoCall), 0, []));
      new;
      HandshakeInit(View());
    }

    /** Subscribe (broker.go:71-99); the id is the subscriber's place in the table. */
    method SubscribeSection() returns (ok: bool, id: nat)
      requires Handshake(View()) && Can(View(), Subscribe)
      modifies this
      ensures View() == Apply(old(View()), Subscribe) && Handshake(View())
      ensures ok == !old(closed) && (ok ==> id == |subs| - 1 && id in registry && !subs[id].closed)
    {
      HandshakeStep(View(), Subscribe);
      id := |subs|;
      ok := !closed;
      if closed {
        return;
      }
      subs := subs + [Sub(false, 0, false, [], [], [])];
      registry := registry + {id};
    }

    /** Ranging over the subscriber map, in any order. */
    method RangeSubscribers() returns (order: seq<nat>)
      ensures Lists(order, registry)
    {
      order := [];
      var rest := registry;
      while rest != {}
        invariant Lists(order, registry - rest) && rest <= registry
        decreases rest
      {
        var i :| i in rest;
        rest := rest - {i};
        assert i !in order;
        order := order + [i];
      }
      assert registry - rest == registry;
    }

    /** snapshot (broker.go:163-181), the first part of Publish. */
    method SnapshotSection(g: nat) returns (ghost a: Action)
      requires g < |pubs| && pubs[g].pc.Snapping? && !locked
      modifies this
      ensures a.Snapshot? && a.g == g && Can(old(View()), a) && View() == Apply(old(View()), a)
      ensures pubs[g].pc == Resting(ErrClosed) <==> old(closed)
      ensures !old(closed) ==> pubs[g].pc == Sending(pubs[g].snap) && Lists(pubs[g].snap, registry)
    {
      var order := RangeSubscribers();
      a := Snapshot(g, order);
      if closed {
        pubs := pubs[g := Pub(Resting(ErrClosed), pubs[g].calls + 1, [])];
        return;
      }
      pubs := pubs[g := Pub(Sending(order), pubs[g].calls, order)];
    }

    /** The loop of Publish and the locked part of send (broker.go:111-121, :211-219). */
    method SendSection(g: nat)
      requires Can(View(), BeginSend(g))
      modifies this
      ensures View() == Apply(old(View()), BeginSend(g))
    {
      var p := pubs[g];
      var todo := p.pc.todo;
      if todo == [] {
        pubs := pubs[g := p.(pc := Resting(Nil), calls := p.calls + 1)];
        return;
      }
      var i := todo[0];
      if subs[i].closed {
        pubs := pubs[g := p.(pc := Checking(todo))];
        return;
      }
      subs := subs[i := subs[i].(wg := subs[i].wg + 1)];
      pubs := pubs[g := p.(pc := Selecting(todo))];
    }

    /** The select of send (broker.go:221-228): its send case, on a channel with a
        free slot or a waiting receiver. The channel is open. */
    method SendCase(g: nat)
      requires Handshake(View()) && (Can(View(), Accept(g)) || Can(View(), Handoff(g)))
      modifies this
      ensures !old(HeadOf(View(), g).chClosed)
      ensures View() == Apply(old(View()), if old(|HeadOf(View(), g).queue| < buffer) then Accept(g) else Handoff(g))
    {
      NeverPanics(View(), if |HeadOf(View(), g).queue| < buffer then Accept(g) else Handoff(g));
      var p := pubs[g];
      var todo := p.pc.todo;
      var m := Msg(g, p.calls);
      var sub := subs[todo[0]];
      if |sub.queue| < buffer {
        subs := subs[todo[0] := sub.(queue := sub.queue + [m], accepted := sub.accepted + [m])];
      } else {
        subs := subs[todo[0] := sub.(accepted := sub.accepted + [m], received := sub.received + [m])];
      }
      pubs := pubs[g := p.(pc := Leaving(todo, true))];
    }

    /** The two done cases of the select, and then the deferred wg.Done. */
    method DoneCase(g: nat)
      requires Can(View(), GiveUp(g))
      modifies this
      ensures View() == Apply(old(View()), GiveUp(g))
    {
      pubs := pubs[g := pubs[g].(pc := Leaving(pubs[g].pc.todo, false))];
    }

    method LeaveSection(g: nat)
      requires Handshake(View()) && Can(View(), Leave(g))
      modifies this
      ensures View() == Apply(old(View()), Leave(g))
    {
      LeaveCounts(View(), g);
      var p := pubs[g];
      var todo := p.pc.todo;
      var i := todo[0];
      subs := subs[i := subs[i].(wg := subs[i].wg - 1)];
      if p.pc.sent {
        pubs := pubs[g := p.(pc := Sending(todo[1..]))];
      } else {
        pubs := pubs[g := p.(pc := Checking(todo))];
      }
    }

    /** isClosed (broker.go:204-209) and what Publish makes of it. */
    method CheckSection(g: nat)
      requires Can(View(), Check(g))
      modifies this
      ensures View() == Apply(old(View()), Check(g))
    {
      var p := pubs[g];
      if closed {
        pubs := pubs[g := p.(pc := Resting(ErrClosed), calls := p.calls + 1)];
      } else {
        pubs := pubs[g := p.(pc := Sending(p.pc.todo[1..]))];
      }
    }

    /** unsubscribe up to sub.close() (broker.go:183-193). */
    method UnsubscribeSection(c: nat)
      requires Can(View(), UnsubscribeLock(c))
      modifies this
      ensures View() == Apply(old(View()), UnsubscribeLock(c))
    {
      var id := closers[c].kind.id;
      if id !in registry {
        closers := closers[c := Returned(One(id))];
        return;
      }
      registry := registry - {id};
      locked := true;
      closers := closers[c := Loop(One(id), [id])];
    }

    /** Close up to its loop over sub.close() (broker.go:131-144): the map is
        emptied while it is ranged over. */
    method CloseSection(c: nat) returns (ghost a: Action)
      requires c < |closers| && closers[c] == Want(All) && !locked
      modifies this
      ensures a.CloseLock? && a.c == c && Can(old(View()), a) && View() == Apply(old(View()), a)
    {
      ghost var all := registry;
      if closed {
        var order := RangeSubscribers();
        a := CloseLock(c, order);
        closers := closers[c := Returned(All)];
        return;
      }
      closed := true;
      var subscribers: seq<nat> := [];
      while registry != {}
        invariant Lists(subscribers, all - registry) && registry <= all
        invariant closed && locked == old(locked) && subs == old(subs) && pubs == old(pubs) && closers == old(closers)
        decreases registry
      {
        var id :| id in registry;
        registry := registry - {id};
        assert id !in subscribers;
        subscribers := subscribers + [id];
      }
      assert all - registry == all;
      a := CloseLock(c, subscribers);
      closers := closers[c := Loop(All, subscribers)];
    }

    /** The locked part of subscriber.close (broker.go:232-240). */
    method ShutSection(c: nat)
      requires Can(View(), Shut(c))
      modifies this
      ensures View() == Apply(old(View()), Shut(c))
    {
      var pc := closers[c];
      var i := pc.todo[0];
      if subs[i].closed {
        closers := closers[c := Loop(pc.kind, pc.todo[1..])];
        return;
      }
      subs := subs[i := subs[i].(closed := true)];
      closers := closers[c := Waiting(pc.kind, pc.todo)];
    }

    /** s.wg.Wait() returns, and then close(s.ch), which was not closed before. */
    method WaitSection(c: nat)
      requires Can(View(), WaitOver(c))
      modifies this
      ensures View() == Apply(old(View()), WaitOver(c))
    {
      closers := closers[c := Ending(closers[c].kind, closers[c].todo)];
    }

    method CloseChannel(c: nat)
      requires Handshake(View()) && Can(View(), CloseCh(c))
      modifies this
      ensures View() == Apply(old(View()), CloseCh(c))
      ensures old(!subs[closers[c].todo[0]].chClosed && subs[closers[c].todo[0]].wg == 0)
    {
      NeverPanics(View(), CloseCh(c));
      var pc := closers[c];
      var i := pc.todo[0];
      subs := subs[i := subs[i].(chClosed := true)];
      closers := closers[c := Loop(pc.kind, pc.todo[1..])];
    }

    /** unsubscribe or Close returns; the former unlocks b.mu. */
    method FinishSection(c: nat)
      requires Can(View(), Finish(c))
      modifies this
      ensures View() == Apply(old(View()), Finish(c))
    {
      if closers[c].kind.One? {
        locked := false;
      }
      closers := closers[c := Returned(closers[c].kind)];
    }

    /** Which publishers and closers can take a step without a receiver. */
    predicate PubReady(g: nat)
      requires g < |pubs|
      reads this
    {
      match pubs[g].pc
      case Resting(_) => false
      case Snapping => !locked
      case Sending(todo) => todo == [] || todo[0] < |subs|
      case Selecting(todo) => todo != [] && todo[0] < |subs| &&
        (|subs[todo[0]].queue| < buffer || subs[todo[0]].closed || closed)
      case Leaving(todo, _) => todo != [] && todo[0] < |subs|
      case Checking(todo) => todo != [] && !locked
    }

    predicate CloserReady(c: nat)
      requires c < |closers|
      reads this
    {
      match closers[c]
      case Want(_) => !locked
      case Loop(_, todo) => todo == [] || todo[0] < |subs|
      case Waiting(_, todo) => todo != [] && todo[0] < |subs| && subs[todo[0]].wg == 0
      case Ending(_, todo) => todo != [] && todo[0] < |subs|
      case Returned(_) => false
    }

    method PubStep(g: nat) returns (ghost a: Action)
      requires Handshake(View()) && g < |pubs| && PubReady(g)
      modifies this
      ensures ByPublisher(a) && !IsCall(a) && !IsReceiver(a) && Can(old(View()), a) && View() == Apply(old(View()), a)
    {
      match pubs[g].pc {
        case Snapping => a := SnapshotSection(g);
        case Sending(_) => a := BeginSend(g); SendSection(g);
        case Selecting(todo) =>
          if |subs[todo[0]].queue| < buffer {
            a := Accept(g);
            SendCase(g);
          } else {
            a := GiveUp(g);
            DoneCase(g);
          }
        case Leaving(_, _) => a := Leave(g); LeaveSection(g);
        case Checking(_) => a := Check(g); CheckSection(g);
      }
    }

    method CloserStep(c: nat) returns (ghost a: Action)
      requires Handshake(View()) && c < |closers| && CloserReady(c)
      modifies this
      ensures ByCloser(a) && Can(old(View()), a) && View() == Apply(old(View()), a)
    {
      match closers[c] {
        case Want(One(_)) => a := UnsubscribeLock(c); UnsubscribeSection(c);
        case Want(All) => a := CloseSection(c);
        case Loop(_, todo) =>
          if todo == [] {
            a := Finish(c);
            FinishSection(c);
          } else {
            a := Shut(c);
            ShutSection(c);
          }
        case Waiting(_, _) => a := WaitOver(c); WaitSection(c);
        case Ending(_, _) => a := CloseCh(c); CloseChannel(c);
      }
    }

    /** Nobody ready means settled. */
    lemma ReadyUnlessSettled()
      requires Handshake(View())
      requires forall g | 0 <= g < |pubs| :: !PubReady(g)
      requires forall c | 0 <= c < |closers| :: !CloserReady(c)
      ensures Settled(View())
    {
      forall t
        ensures !MovesAlone(View(), t)
      {
        if MovesAlone(View(), t) {
          var a :| !IsCall(a) && !IsReceiver(a) && Can(View(), a) && t == Apply(View(), a);
          if ByPublisher(a) {
            assert PubReady(a.g);
          } else {
            assert CloserReady(a.c);
          }
        }
      }
      SettledIfStuck(View());
    }

    predicate SomeoneReady()
      reads this
    {
      (exists g | 0 <= g < |pubs| :: PubReady(g)) || exists c | 0 <= c < |closers| :: CloserReady(c)
    }

    /** One step that needs no receiver, of any call. */
    method Turn() returns (ghost a: Action)
      requires Handshake(View()) && SomeoneReady()
      modifies this
      ensures !IsCall(a) && Can(old(View()), a) && View() == Apply(old(View()), a)
      ensures Handshake(View()) && Measure(View()) < Measure(old(View()))
    {
      ghost var before := View();
      var closerFirst: bool := *;
      if (closerFirst || forall g | 0 <= g < |pubs| :: !PubReady(g))
         && exists c | 0 <= c < |closers| :: CloserReady(c) {
        var c :| 0 <= c < |closers| && CloserReady(c);
        a := CloserStep(c);
      } else {
        var g :| 0 <= g < |pubs| && PubReady(g);
        a := PubStep(g);
      }
      HandshakeStep(before, a);
      MeasureStep(before, a);
    }

    /** The subscriber that holds up publisher g receives: from its full channel or,
        if that has no buffer, from the publisher's hand. */
    method Relieve(g: nat) returns (ghost a: Action)
      requires Handshake(View()) && g < |pubs| && Stalled(View(), g)
      modifies this
      ensures !IsCall(a) && Can(old(View()), a) && View() == Apply(old(View()), a)
      ensures Handshake(View()) && Measure(View()) < Measure(old(View()))
    {
      ghost var before := View();
      var i := pubs[g].pc.todo[0];
      if subs[i].queue == [] {
        a := Handoff(g);
        SendCase(g);
      } else {
        a := Receive(i);
        subs := subs[i := subs[i].(queue := subs[i].queue[1..], received := subs[i].received + [subs[i].queue[0]])];
      }
      HandshakeStep(before, a);
      MeasureStep(before, a);
    }

    /** One turn while publisher g is in its call number k: of any call, or of the
        subscriber without which nothing moves. */
    method PublishTurn(g: nat, ghost k: nat, ghost members: set<nat>, ghost refused: bool)
      requires Delivery(View()) && g < |pubs| && !pubs[g].pc.Resting? && InPublish(pubs[g], k)
      requires refused ==> closed && pubs[g].pc.Snapping?
      requires forall i | i in members :: i < |subs| && Covered(View(), g, k, i)
      modifies this
      ensures Delivery(View()) && g < |pubs| && InPublish(pubs[g], k)
      ensures refused ==> closed && (pubs[g].pc.Snapping? || pubs[g].pc == Resting(ErrClosed))
      ensures forall i | i in members :: i < |subs| && Covered(View(), g, k, i)
      ensures Measure(View()) < Measure(old(View()))
    {
      ghost var before := View();
      ghost var a;
      if SomeoneReady() {
        a := Turn();
      } else {
        ReadyUnlessSettled();
        a := Relieve(g);
      }
      DeliveryStep(before, a);
      PublishGoesOn(before, a, g, k);
      CallFrame(before, a, g);
      CoveredStays(before, a, g, k, members);
    }

    /** Publish as its caller sees it, if subscribers that hold it up receive: it
        returns nil only if every subscriber registered at the call accepted exactly
        one copy or was unsubscribed, and ErrClosed on a broker that was closed at the
        call or is closed by then. */
    method Publish(g: nat) returns (r: Outcome)
      requires Delivery(View()) && Can(View(), CallPublish(g))
      modifies this
      ensures Delivery(View()) && g < |pubs| && pubs[g].pc == Resting(r)
      ensures pubs[g].calls == old(pubs[g].calls) + 1 && (r == Nil || r == ErrClosed)
      ensures r == ErrClosed ==> closed
      ensures old(closed) ==> r == ErrClosed
      ensures r == Nil ==> forall i | i in old(registry) || i in pubs[g].snap ::
        && i < |subs|
        && (Unsubscribed(View(), i) || multiset(subs[i].accepted)[Msg(g, old(pubs[g].calls))] == 1)
    {
      ghost var k := pubs[g].calls;
      ghost var members := registry;
      DeliveryStep(View(), CallPublish(g));
      pubs := pubs[g := pubs[g].(pc := Snapping)];
      while !pubs[g].pc.Resting?
        invariant Delivery(View()) && g < |pubs| && InPublish(pubs[g], k)
        invariant old(closed) ==> closed && (pubs[g].pc.Snapping? || pubs[g].pc == Resting(ErrClosed))
        invariant forall i | i in members :: i < |subs| && Covered(View(), g, k, i)
        decreases Measure(View())
      {
        PublishTurn(g, k, members, old(closed));
      }
      r := pubs[g].pc.last;
      assert PubOk(View(), pubs[g]);
      if r == Nil {
        Delivered(View(), g, k, members);
      }
    }

    /** One turn of any call while closer c is in an Unsubscribe of id. */
    method UnsubscribeTurn(c: nat, id: nat, ghost calm: bool)
      requires Handshake(View()) && c < |closers| && closers[c].kind == One(id) && !closers[c].Returned?
      requires calm ==> OnTrack(View(), c, id)
      modifies this
      ensures Handshake(View()) && c < |closers| && closers[c].kind == One(id)
      ensures calm ==> OnTrack(View(), c, id)
      ensures Measure(View()) < Measure(old(View()))
    {
      CloserKeepsReady(c);
      ghost var now := View();
      ghost var a := Turn();
      KindStays(now, a, c);
      if calm {
        OnTrackStep(now, a, c, id);
      }
    }

    /** The function returned by Subscribe, as its caller sees it: it always returns,
        and then the channel is closed unless a Close under way has yet to get to
        it, which cannot happen if nothing disturbed the call when it began. */
    method Unsubscribe(id: nat)
      requires Handshake(View()) && id < |subs|
      modifies this
      ensures Handshake(View()) && id < |subs|
      ensures subs[id].chClosed || CloseHas(View(), id)
      ensures old(Undisturbed(View(), id)) ==> subs[id].chClosed
    {
      var c := |closers|;
      ghost var before := View();
      HandshakeStep(before, CallUnsubscribe(id));
      closers := closers + [Want(One(id))];
      ghost var calm := Undisturbed(before, id);
      assert calm ==> OnTrack(View(), c, id);
      while !closers[c].Returned?
        invariant Handshake(View()) && c < |closers| && closers[c].kind == One(id)
        invariant calm ==> OnTrack(View(), c, id)
        decreases Measure(View())
      {
        UnsubscribeTurn(c, id, calm);
      }
      UnsubscribeCloses(View(), c);
    }

    /** Close as its caller sees it: it always returns, the broker is closed, and
        every channel is closed that no other call still has to close. */
    method Close()
      requires Handshake(View())
      modifies this
      ensures Handshake(View()) && closed
      ensures forall i | 0 <= i < |subs| ::
        subs[i].chClosed || exists d :: 0 <= d < |closers| && Busy(closers[d]) && i in closers[d].todo
    {
      var c := |closers|;
      HandshakeStep(View(), CallClose);
      closers := closers + [Want(All)];
      while !closers[c].Returned?
        invariant Handshake(View()) && c < |closers| && closers[c].kind == All
        invariant !closers[c].Want? ==> closed
        decreases Measure(View())
      {
        CloserKeepsReady(c);
        ghost var now := View();
        ghost var a := Turn();
        KindStays(now, a, c);
        CloseGoesOn(now, a, c);
      }
      forall i | 0 <= i < |subs| && !subs[i].chClosed
        ensures exists d :: 0 <= d < |closers| && Busy(closers[d]) && i in closers[d].todo
      {
        OpenIsOwned(View(), i);
      }
    }

    /** A closer that has not returned, or whoever it waits for, can go on. */
    lemma CloserKeepsReady(c: nat)
      requires Handshake(View()) && c < |closers| && !closers[c].Returned?
      ensures SomeoneReady()
    {
      if !SomeoneReady() {
        ReadyUnlessSettled();
      }
    }

    /** Lets an arbitrary scheduler run every call under way, with no help from
        the subscribers. Afterwards every Unsubscribe and Close has returned. */
    method Settle()
      requires Handshake(View())
      modifies this
      ensures Handshake(View()) && Settled(View())
    {
      while SomeoneReady()
        invariant Handshake(View())
        decreases Measure(View())
      {
        ghost var a := Turn();
      }
      ReadyUnlessSettled();
    }
  }

  /** New (broker.go:55-65). */
  method NewBroker(buffer: int, publishers: nat) returns (b: Broker?)
    ensures b == null <==> buffer < 0
    ensures b != null ==> fresh(b) && b.buffer == buffer && Init(b.View())
  {
    b := null;
    if buffer >= 0 {
      b := new Broker(buffer, publishers);
    }
  }
}
