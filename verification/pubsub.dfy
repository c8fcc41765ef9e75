/** examples/pubsub/broker.go: the handshake between publishers, unsubscribers and
    Close, as a state machine.

    Any number of publishers, subscribers and closers run at any time. The read
    side of the broker's RWMutex and each subscriber's own mutex are held only
    within single steps. `unsubscribe` keeps the write lock while it waits for
    the senders of its subscriber; that lock is a variable here.
 */
module PubSubProtocol {
  import opened Sums

  /** The message of publisher g's call number k. */
  datatype Msg = Msg(g: nat, k: nat)

  datatype Sub = Sub(
    closed: bool,          // s.closed, and s.done closed in the same section
    wg: nat,               // s.wg
    chClosed: bool,        // s.ch is closed
    queue: seq<Msg>,       // buffered in s.ch
    accepted: seq<Msg>,    // everything s.ch has accepted
    received: seq<Msg>)    // everything the subscriber has received

  datatype Outcome = NoCall | Nil | ErrClosed

  datatype Pc =
    | Resting(last: Outcome)
    | Snapping                              // about to take the snapshot
    | Sending(todo: seq<nat>)               // loop head; send to todo[0] is next
    | Selecting(todo: seq<nat>)             // counted in todo[0].wg, in the select
    | Leaving(todo: seq<nat>, sent: bool)   // the deferred wg.Done is next
    | Checking(todo: seq<nat>)              // send returned false, isClosed is next

  /** A publisher: the number of its calls that returned, and its last snapshot. */
  datatype Pub = Pub(pc: Pc, calls: nat, snap: seq<nat>)

  datatype Kind = One(id: nat) | All

  datatype Closer =
    | Want(kind: Kind)                      // about to lock b.mu
    | Loop(kind: Kind, todo: seq<nat>)      // sub.close() of todo[0] is next
    | Waiting(kind: Kind, todo: seq<nat>)   // s.wg.Wait() of todo[0]
    | Ending(kind: Kind, todo: seq<nat>)    // close(s.ch) of todo[0] is next
    | Returned(kind: Kind)

  datatype State = State(
    buffer: nat,
    locked: bool,            // b.mu is held for writing across steps
    registry: set<nat>,      // the keys of b.subscribers
    closed: bool,            // b.closed, and b.done closed in the same section
    subs: seq<Sub>,          // by id; nextID is their number
    pubs: seq<Pub>,
    closers: seq<Closer>)

  datatype Action =
    | Subscribe
    | CallPublish(g: nat)
    | CallUnsubscribe(id: nat)
    | CallClose
    | Snapshot(g: nat, order: seq<nat>)     // the map is ranged over in any order
    | BeginSend(g: nat)
    | Accept(g: nat)                        // the select puts the message into s.ch
    | Handoff(g: nat)                       // ... or gives it to a waiting receiver
    | GiveUp(g: nat)                        // ... or takes s.done or b.done
    | Leave(g: nat)
    | Check(g: nat)
    | Receive(i: nat)
    | UnsubscribeLock(c: nat)
    | CloseLock(c: nat, order: seq<nat>)
    | Shut(c: nat)
    | WaitOver(c: nat)
    | CloseCh(c: nat)
    | Finish(c: nat)

  /** order lists exactly the registered subscribers, once each. */
  predicate Lists(order: seq<nat>, registry: set<nat>) {
    && (forall i | i in order :: i in registry)
    && (forall i | i in registry :: i in order)
    && forall i, j | 0 <= i < j < |order| :: order[i] != order[j]
  }

  predicate HeadOk(s: State, todo: seq<nat>) {
    todo != [] && todo[0] < |s.subs|
  }

  predicate Can(s: State, a: Action) {
    match a
    case Subscribe => !s.locked
    case CallPublish(g) => g < |s.pubs| && s.pubs[g].pc.Resting?
    case CallUnsubscribe(id) => id < |s.subs|
    case CallClose => true
    case Snapshot(g, order) => g < |s.pubs| && s.pubs[g].pc.Snapping? && !s.locked && Lists(order, s.registry)
    case BeginSend(g) =>
      g < |s.pubs| && s.pubs[g].pc.Sending? && (s.pubs[g].pc.todo == [] || HeadOk(s, s.pubs[g].pc.todo))
    case Accept(g) => SelectsOn(s, g) && |HeadOf(s, g).queue| < s.buffer
    case Handoff(g) => SelectsOn(s, g) && HeadOf(s, g).queue == []
    case GiveUp(g) => SelectsOn(s, g) && (HeadOf(s, g).closed || s.closed)
    case Leave(g) => g < |s.pubs| && s.pubs[g].pc.Leaving? && HeadOk(s, s.pubs[g].pc.todo)
    case Check(g) => g < |s.pubs| && s.pubs[g].pc.Checking? && s.pubs[g].pc.todo != [] && !s.locked
    case Receive(i) => i < |s.subs| && s.subs[i].queue != []
    case UnsubscribeLock(c) => c < |s.closers| && s.closers[c].Want? && s.closers[c].kind.One? && !s.locked
    case CloseLock(c, order) => c < |s.closers| && s.closers[c] == Want(All) && !s.locked && Lists(order, s.registry)
    case Shut(c) => c < |s.closers| && s.closers[c].Loop? && HeadOk(s, s.closers[c].todo)
    case WaitOver(c) =>
      && c < |s.closers| && s.closers[c].Waiting? && HeadOk(s, s.closers[c].todo)
      && s.subs[s.closers[c].todo[0]].wg == 0
    case CloseCh(c) => c < |s.closers| && s.closers[c].Ending? && HeadOk(s, s.closers[c].todo)
    case Finish(c) => c < |s.closers| && s.closers[c].Loop? && s.closers[c].todo == []
  }

  predicate SelectsOn(s: State, g: nat) {
    g < |s.pubs| && s.pubs[g].pc.Selecting? && HeadOk(s, s.pubs[g].pc.todo)
  }

  function HeadOf(s: State, g: nat): Sub
    requires SelectsOn(s, g)
  {
    s.subs[s.pubs[g].pc.todo[0]]
  }

  function PubGoto(s: State, g: nat, pc: Pc): State
    requires g < |s.pubs|
  {
    s.(pubs := s.pubs[g := s.pubs[g].(pc := pc)])
  }

  /** Publish returns. */
  function PubReturn(s: State, g: nat, r: Outcome): State
    requires g < |s.pubs|
  {
    s.(pubs := s.pubs[g := s.pubs[g].(pc := Resting(r), calls := s.pubs[g].calls + 1)])
  }

  function CloserGoto(s: State, c: nat, x: Closer): State
    requires c < |s.closers|
  {
    s.(closers := s.closers[c := x])
  }

  function WithSub(s: State, i: nat, x: Sub): State
    requires i < |s.subs|
  {
    s.(subs := s.subs[i := x])
  }

  function Apply(s: State, a: Action): State
    requires Can(s, a)
  {
    match a
    case Subscribe =>
      if s.closed then s
      else s.(registry := s.registry + {|s.subs|}, subs := s.subs + [Sub(false, 0, false, [], [], [])])
    case CallPublish(g) => PubGoto(s, g, Snapping)
    case CallUnsubscribe(id) => s.(closers := s.closers + [Want(One(id))])
    case CallClose => s.(closers := s.closers + [Want(All)])
    case Snapshot(g, order) =>
      if s.closed then s.(pubs := s.pubs[g := Pub(Resting(ErrClosed), s.pubs[g].calls + 1, [])])
      else s.(pubs := s.pubs[g := Pub(Sending(order), s.pubs[g].calls, order)])
    case BeginSend(g) =>
      var todo := s.pubs[g].pc.todo;
      if todo == [] then PubReturn(s, g, Nil)
      else
        var i := todo[0];
        if s.subs[i].closed then PubGoto(s, g, Checking(todo))
        else WithSub(PubGoto(s, g, Selecting(todo)), i, s.subs[i].(wg := s.subs[i].wg + 1))
    case Accept(g) =>
      var todo := s.pubs[g].pc.todo;
      var m := Msg(g, s.pubs[g].calls);
      var sub := s.subs[todo[0]];
      WithSub(PubGoto(s, g, Leaving(todo, true)), todo[0],
        sub.(queue := sub.queue + [m], accepted := sub.accepted + [m]))
    case Handoff(g) =>
      var todo := s.pubs[g].pc.todo;
      var m := Msg(g, s.pubs[g].calls);
      var sub := s.subs[todo[0]];
      WithSub(PubGoto(s, g, Leaving(todo, true)), todo[0],
        sub.(accepted := sub.accepted + [m], received := sub.received + [m]))
    case GiveUp(g) => PubGoto(s, g, Leaving(s.pubs[g].pc.todo, false))
    case Leave(g) =>
      var pc := s.pubs[g].pc;
      var i := pc.todo[0];
      var wg := s.subs[i].wg;
      WithSub(PubGoto(s, g, if pc.sent then Sending(pc.todo[1..]) else Checking(pc.todo)), i,
        s.subs[i].(wg := if wg > 0 then wg - 1 else 0))
    case Check(g) =>
      if s.closed then PubReturn(s, g, ErrClosed)
      else PubGoto(s, g, Sending(s.pubs[g].pc.todo[1..]))
    case Receive(i) =>
      var sub := s.subs[i];
      WithSub(s, i, sub.(queue := sub.queue[1..], received := sub.received + [sub.queue[0]]))
    case UnsubscribeLock(c) =>
      var id := s.closers[c].kind.id;
      if id in s.registry then
        CloserGoto(s, c, Loop(One(id), [id])).(registry := s.registry - {id}, locked := true)
      else CloserGoto(s, c, Returned(One(id)))
    case CloseLock(c, order) =>
      if s.closed then CloserGoto(s, c, Returned(All))
      else CloserGoto(s, c, Loop(All, order)).(registry := {}, closed := true)
    case Shut(c) =>
      var pc := s.closers[c];
      var i := pc.todo[0];
      if s.subs[i].closed then CloserGoto(s, c, Loop(pc.kind, pc.todo[1..]))
      else WithSub(CloserGoto(s, c, Waiting(pc.kind, pc.todo)), i, s.subs[i].(closed := true))
    case WaitOver(c) =>
      CloserGoto(s, c, Ending(s.closers[c].kind, s.closers[c].todo))
    case CloseCh(c) =>
      var pc := s.closers[c];
      var i := pc.todo[0];
      WithSub(CloserGoto(s, c, Loop(pc.kind, pc.todo[1..])), i, s.subs[i].(chClosed := true))
    case Finish(c) =>
      var kind := s.closers[c].kind;
      CloserGoto(s, c, Returned(kind)).(locked := if kind.One? then false else s.locked)
  }

  /** New calls and what the subscribers do with their channels. */
  predicate IsCall(a: Action) {
    a.Subscribe? || a.CallPublish? || a.CallUnsubscribe? || a.CallClose?
  }

  predicate IsReceiver(a: Action) {
    a.Receive? || a.Handoff?
  }

  ghost predicate Next(s: State, t: State) {
    exists a :: Can(s, a) && t == Apply(s, a)
  }

  /** A step of a call under way. */
  ghost predicate Moves(s: State, t: State) {
    exists a :: !IsCall(a) && Can(s, a) && t == Apply(s, a)
  }

  /** A step of a call under way that needs no subscriber to receive. */
  ghost predicate MovesAlone(s: State, t: State) {
    exists a :: !IsCall(a) && !IsReceiver(a) && Can(s, a) && t == Apply(s, a)
  }

  ghost predicate Init(s: State) {
    && !s.locked && !s.closed && s.registry == {} && s.subs == [] && s.closers == []
    && forall g | 0 <= g < |s.pubs| :: s.pubs[g] == Pub(Resting(NoCall), 0, [])
  }

  // ------------------------------------------------- invariant: the handshake

  predicate Counts(pc: Pc) {
    (pc.Selecting? || pc.Leaving?) && pc.todo != []
  }

  /** Weight 1 for a publisher counted in subscriber i's WaitGroup. */
  function CountedOn(i: nat): Pub -> nat {
    (p: Pub) => if Counts(p.pc) && p.pc.todo[0] == i then 1 else 0
  }

  predicate Busy(c: Closer) {
    c.Loop? || c.Waiting? || c.Ending?
  }

  /** How often a closer has subscriber i on its list. */
  function Owns(i: nat): Closer -> nat {
    (c: Closer) => if Busy(c) then multiset(c.todo)[i] else 0
  }

  function HoldsLock(c: Closer): nat {
    if Busy(c) && c.kind.One? then 1 else 0
  }

  function Flag(b: bool): nat {
    if b then 1 else 0
  }

  /** Every subscriber is registered, or on the list of one closer, or its channel
      is closed: exactly one of these, so exactly one party ever closes it. */
  ghost predicate OneOwner(s: State, i: nat)
    requires i < |s.subs|
  {
    Flag(i in s.registry) + Sum(s.closers, Owns(i)) + Flag(s.subs[i].chClosed) == 1
  }

  ghost predicate SubOk(s: State, i: nat)
    requires i < |s.subs|
  {
    var sub := s.subs[i];
    && sub.wg == Sum(s.pubs, CountedOn(i))
    && (sub.chClosed ==> sub.closed && sub.wg == 0)
    && (i in s.registry ==> !sub.closed)
    && sub.accepted == sub.received + sub.queue
    && |sub.queue| <= s.buffer
    && OneOwner(s, i)
  }

  ghost predicate TodoOk(s: State, todo: seq<nat>) {
    forall i | i in todo :: i < |s.subs|
  }

  ghost predicate CloserOk(s: State, c: Closer) {
    && (Busy(c) ==> TodoOk(s, c.todo))
    && (c.Loop? ==> forall i | i in c.todo :: i < |s.subs| && !s.subs[i].closed)
    && (c.Waiting? || c.Ending? ==>
          && HeadOk(s, c.todo)
          && s.subs[c.todo[0]].closed
          && forall i | i in c.todo[1..] :: i < |s.subs| && !s.subs[i].closed)
    && (c.Ending? ==> s.subs[c.todo[0]].wg == 0)
    && (Busy(c) && c.kind.All? ==> s.closed)
    && (Busy(c) && c.kind.One? ==> c.todo == [c.kind.id] || c.todo == [])
    && (c.kind.One? ==> c.kind.id < |s.subs|)
    && (c.kind.One? && !s.closed && (c.Returned? || (c.Loop? && c.todo == [])) ==> s.subs[c.kind.id].chClosed)
  }

  ghost predicate PubOk(s: State, p: Pub) {
    && (!p.pc.Resting? && !p.pc.Snapping? ==> TodoOk(s, p.pc.todo))
    && (p.pc.Selecting? || p.pc.Leaving? || p.pc.Checking? ==> p.pc.todo != [])
    && (p.pc == Resting(ErrClosed) ==> s.closed)
  }

  ghost predicate Handshake(s: State) {
    && (forall i | i in s.registry :: i < |s.subs|)
    && (s.closed ==> s.registry == {} && !s.locked)
    && Flag(s.locked) == Sum(s.closers, HoldsLock)
    && (forall i | 0 <= i < |s.subs| :: SubOk(s, i))
    && (forall c | 0 <= c < |s.closers| :: CloserOk(s, s.closers[c]))
    && (forall g | 0 <= g < |s.pubs| :: PubOk(s, s.pubs[g]))
  }

  // ------------------------------------------------------------ small lemmas

  lemma HeadCount(todo: seq<nat>, i: nat)
    requires todo != []
    ensures multiset(todo)[i] == multiset(todo[1..])[i] + (if todo[0] == i then 1 else 0)
  {
    assert todo == [todo[0]] + todo[1..];
  }

  lemma {:induction false} DistinctCount(order: seq<nat>, i: nat)
    requires forall j, k | 0 <= j < k < |order| :: order[j] != order[k]
    ensures multiset(order)[i] == Flag(i in order)
  {
    if order != [] {
      DistinctCount(order[1..], i);
      HeadCount(order, i);
      assert i in order <==> i == order[0] || i in order[1..];
      if i == order[0] {
        assert i !in order[1..];
      }
    }
  }

  /** Two closers never have the same subscriber on their lists. */
  lemma OneList(s: State, i: nat, c: nat, d: nat)
    requires i < |s.subs| && SubOk(s, i) && c < |s.closers| && d < |s.closers| && c != d
    requires Busy(s.closers[c]) && Busy(s.closers[d]) && i in s.closers[c].todo
    ensures i !in s.closers[d].todo && i !in s.registry && !s.subs[i].chClosed
    ensures multiset(s.closers[c].todo)[i] == 1
  {
    SumTwo(s.closers, if c < d then c else d, if c < d then d else c, Owns(i));
    assert Owns(i)(s.closers[c]) > 0;
  }

  /** What one closer has on its list is neither registered nor closed, and is on
      the list once. */
  lemma OnList(s: State, i: nat, c: nat)
    requires i < |s.subs| && SubOk(s, i) && c < |s.closers| && Busy(s.closers[c]) && i in s.closers[c].todo
    ensures i !in s.registry && !s.subs[i].chClosed && multiset(s.closers[c].todo)[i] == 1
  {
    SumAtLeast(s.closers, c, Owns(i));
    assert Owns(i)(s.closers[c]) > 0;
  }

  /** Publishers that do not move stay in order while no subscriber number is lost. */
  lemma PubsKept(s: State, t: State)
    requires forall g | 0 <= g < |s.pubs| :: PubOk(s, s.pubs[g])
    requires t.pubs == s.pubs && |s.subs| <= |t.subs| && (s.closed ==> t.closed)
    ensures forall g | 0 <= g < |t.pubs| :: PubOk(t, t.pubs[g])
  {
    forall g | 0 <= g < |t.pubs|
      ensures PubOk(t, t.pubs[g])
    {
      assert PubOk(s, s.pubs[g]);
    }
  }

  // --------------------------------------------------- publishers' steps

  predicate ByPublisher(a: Action) {
    a.CallPublish? || a.Snapshot? || a.BeginSend? || a.Accept? || a.Handoff? || a.GiveUp? || a.Leave? || a.Check?
  }

  predicate ByCloser(a: Action) {
    a.UnsubscribeLock? || a.CloseLock? || a.Shut? || a.WaitOver? || a.CloseCh? || a.Finish?
  }

  /** What a publisher's step leaves alone. */
  lemma PublisherFrame(s: State, a: Action)
    requires Can(s, a) && ByPublisher(a)
    ensures var t := Apply(s, a);
      && t.closers == s.closers && t.registry == s.registry && t.closed == s.closed && t.locked == s.locked
      && t.buffer == s.buffer && |t.subs| == |s.subs|
      && t.pubs == s.pubs[a.g := t.pubs[a.g]]
      && (forall i | 0 <= i < |s.subs| ::
            && t.subs[i].closed == s.subs[i].closed && t.subs[i].chClosed == s.subs[i].chClosed
            && (s.subs[i].closed && s.subs[i].wg == 0 ==> t.subs[i].wg == 0))
  {
  }

  lemma BeginCount(s: State, g: nat, i: nat)
    requires Can(s, BeginSend(g)) && i < |s.subs|
    ensures i < |Apply(s, BeginSend(g)).subs| && g < |Apply(s, BeginSend(g)).pubs|
    ensures Apply(s, BeginSend(g)).subs[i].wg == s.subs[i].wg + CountedOn(i)(Apply(s, BeginSend(g)).pubs[g])
  {
  }

  lemma LeaveCount(s: State, g: nat, i: nat)
    requires Can(s, Leave(g)) && i < |s.subs| && CountedOn(i)(s.pubs[g]) <= s.subs[i].wg
    ensures i < |Apply(s, Leave(g)).subs| && g < |Apply(s, Leave(g)).pubs|
    ensures Apply(s, Leave(g)).subs[i].wg + CountedOn(i)(s.pubs[g]) == s.subs[i].wg
    ensures CountedOn(i)(Apply(s, Leave(g)).pubs[g]) == 0
  {
  }

  /** What a publisher's step does to a counter is what it does to itself. */
  lemma PublisherCount(s: State, a: Action, i: nat)
    requires Can(s, a) && ByPublisher(a) && i < |s.subs| && PubOk(s, s.pubs[a.g])
    requires CountedOn(i)(s.pubs[a.g]) <= s.subs[i].wg
    ensures i < |Apply(s, a).subs| && a.g < |Apply(s, a).pubs|
    ensures Apply(s, a).subs[i].wg + CountedOn(i)(s.pubs[a.g]) == s.subs[i].wg + CountedOn(i)(Apply(s, a).pubs[a.g])
  {
    if a.BeginSend? {
      BeginCount(s, a.g, i);
    } else if a.Leave? {
      LeaveCount(s, a.g, i);
    }
  }

  /** The counter of each subscriber follows its senders. */
  lemma PublisherWg(s: State, a: Action, i: nat)
    requires Can(s, a) && ByPublisher(a) && i < |s.subs| && s.subs[i].wg == Sum(s.pubs, CountedOn(i))
    requires PubOk(s, s.pubs[a.g])
    ensures Apply(s, a).subs[i].wg == Sum(Apply(s, a).pubs, CountedOn(i))
  {
    SumAtLeast(s.pubs, a.g, CountedOn(i));
    PublisherCount(s, a, i);
    PublisherFrame(s, a);
    SumUpdate(s.pubs, a.g, Apply(s, a).pubs[a.g], CountedOn(i));
  }

  lemma PublisherQueue(s: State, a: Action, i: nat)
    requires Can(s, a) && ByPublisher(a) && i < |s.subs|
    requires s.subs[i].accepted == s.subs[i].received + s.subs[i].queue && |s.subs[i].queue| <= s.buffer
    ensures var sub := Apply(s, a).subs[i]; sub.accepted == sub.received + sub.queue && |sub.queue| <= s.buffer
  {
  }

  lemma PublisherPub(s: State, a: Action)
    requires Can(s, a) && ByPublisher(a) && PubOk(s, s.pubs[a.g])
    requires forall i | i in s.registry :: i < |s.subs|
    ensures PubOk(Apply(s, a), Apply(s, a).pubs[a.g])
  {
    var pc := s.pubs[a.g].pc;
    if a.Leave? || a.Check? {
      assert forall i | i in pc.todo[1..] :: i in pc.todo;
    }
  }

  lemma PublisherStep(s: State, a: Action)
    requires Handshake(s) && Can(s, a) && ByPublisher(a)
    ensures Handshake(Apply(s, a))
  {
    var t := Apply(s, a);
    PublisherFrame(s, a);
    PublisherPub(s, a);
    forall i | 0 <= i < |t.subs|
      ensures SubOk(t, i)
    {
      assert SubOk(s, i);
      PublisherWg(s, a, i);
      PublisherQueue(s, a, i);
    }
    forall c | 0 <= c < |t.closers|
      ensures CloserOk(t, t.closers[c])
    {
      assert CloserOk(s, s.closers[c]);
    }
    forall g | 0 <= g < |t.pubs|
      ensures PubOk(t, t.pubs[g])
    {
      assert PubOk(s, s.pubs[g]);
    }
  }

  // ------------------------------------------------------- closers' steps

  lemma NobodyBusy(s: State)
    requires Handshake(s) && !s.locked && !s.closed
    ensures forall c | 0 <= c < |s.closers| :: !Busy(s.closers[c])
  {
    forall c | 0 <= c < |s.closers|
      ensures !Busy(s.closers[c])
    {
      assert CloserOk(s, s.closers[c]);
      SumAtLeast(s.closers, c, HoldsLock);
    }
  }

  /** A closer that does not move stays in order while the subscribers stay. */
  lemma CloserKept(s: State, t: State, x: Closer)
    requires CloserOk(s, x) && t.subs == s.subs && (s.closed ==> t.closed)
    ensures CloserOk(t, x)
  {
  }

  lemma UnsubscribeLockSub(s: State, c: nat, i: nat)
    requires Handshake(s) && Can(s, UnsubscribeLock(c)) && i < |s.subs|
    ensures SubOk(Apply(s, UnsubscribeLock(c)), i)
  {
    assert SubOk(s, i);
    SumUpdate(s.closers, c, Apply(s, UnsubscribeLock(c)).closers[c], Owns(i));
  }

  /** What an unsubscribe did not find was closed before it, or Close has begun. */
  lemma NotFound(s: State, id: nat)
    requires Handshake(s) && !s.locked && !s.closed && id < |s.subs| && id !in s.registry
    ensures s.subs[id].chClosed
  {
    assert SubOk(s, id);
    NobodyBusy(s);
    SumConstant(s.closers, 0, Owns(id));
  }

  lemma UnsubscribeLockStep(s: State, c: nat)
    requires Handshake(s) && Can(s, UnsubscribeLock(c))
    ensures Handshake(Apply(s, UnsubscribeLock(c)))
  {
    var t := Apply(s, UnsubscribeLock(c));
    var id := s.closers[c].kind.id;
    SumUpdate(s.closers, c, t.closers[c], HoldsLock);
    assert CloserOk(s, s.closers[c]);
    assert SubOk(s, id);
    if id !in s.registry && !s.closed {
      NotFound(s, id);
    }
    forall i | 0 <= i < |t.subs|
      ensures SubOk(t, i)
    {
      UnsubscribeLockSub(s, c, i);
    }
    forall d | 0 <= d < |t.closers|
      ensures CloserOk(t, t.closers[d])
    {
      if d != c {
        CloserKept(s, t, s.closers[d]);
      }
    }
    PubsKept(s, t);
  }

  lemma CloseLockStep(s: State, c: nat, order: seq<nat>)
    requires Handshake(s) && Can(s, CloseLock(c, order))
    ensures Handshake(Apply(s, CloseLock(c, order)))
  {
    var t := Apply(s, CloseLock(c, order));
    SumUpdate(s.closers, c, t.closers[c], HoldsLock);
    forall i | 0 <= i < |t.subs|
      ensures SubOk(t, i)
    {
      assert SubOk(s, i);
      SumUpdate(s.closers, c, t.closers[c], Owns(i));
      DistinctCount(order, i);
    }
    forall d | 0 <= d < |t.closers|
      ensures CloserOk(t, t.closers[d])
    {
      if d != c {
        CloserKept(s, t, s.closers[d]);
      } else {
        assert CloserOk(s, s.closers[c]);
        assert forall i | i in order :: i in s.registry && SubOk(s, i);
      }
    }
    PubsKept(s, t);
  }

  /** A step that moves closer c along its list and changes one subscriber. */
  predicate OnHead(a: Action) {
    a.Shut? || a.WaitOver? || a.CloseCh?
  }

  lemma HeadFrame(s: State, a: Action)
    requires Can(s, a) && OnHead(a) && CloserOk(s, s.closers[a.c])
    ensures var t := Apply(s, a);
      var i := s.closers[a.c].todo[0];
      && t.pubs == s.pubs && t.registry == s.registry && t.closed == s.closed
      && t.locked == s.locked && t.buffer == s.buffer
      && t.closers == s.closers[a.c := t.closers[a.c]]
      && Busy(t.closers[a.c]) && t.closers[a.c].kind == s.closers[a.c].kind
      && t.subs == s.subs[i := t.subs[i]]
      && t.subs[i].wg == s.subs[i].wg && t.subs[i].closed
      && (t.closers[a.c].todo == if a.CloseCh? then s.closers[a.c].todo[1..] else s.closers[a.c].todo)
      && (t.subs[i].chClosed <==> s.subs[i].chClosed || a.CloseCh?)
      && t.subs[i].queue == s.subs[i].queue
      && t.subs[i].accepted == s.subs[i].accepted && t.subs[i].received == s.subs[i].received
  {
    assert s.closers[a.c].todo[0] in s.closers[a.c].todo;
  }

  /** How a closer's hold on subscriber i changes at the head of its list. */
  lemma HeadOwns(s: State, a: Action, i: nat)
    requires Can(s, a) && OnHead(a) && CloserOk(s, s.closers[a.c])
    ensures |Apply(s, a).closers| == |s.closers|
    ensures Owns(i)(s.closers[a.c])
      == Owns(i)(Apply(s, a).closers[a.c]) + if a.CloseCh? && i == s.closers[a.c].todo[0] then 1 else 0
  {
    HeadFrame(s, a);
    HeadCount(s.closers[a.c].todo, i);
  }

  lemma HeadSub(s: State, a: Action, i: nat)
    requires Handshake(s) && Can(s, a) && OnHead(a) && i < |s.subs|
    ensures i < |Apply(s, a).subs| && SubOk(Apply(s, a), i)
  {
    assert CloserOk(s, s.closers[a.c]);
    assert SubOk(s, i);
    HeadFrame(s, a);
    HeadOwns(s, a, i);
    SumUpdate(s.closers, a.c, Apply(s, a).closers[a.c], Owns(i));
    if i == s.closers[a.c].todo[0] {
      OnList(s, i, a.c);
    }
  }

  /** The rest of a closer's list does not contain its head again. */
  lemma HeadOnce(s: State, c: nat)
    requires Handshake(s) && c < |s.closers| && Busy(s.closers[c]) && HeadOk(s, s.closers[c].todo)
    ensures forall i | i in s.closers[c].todo[1..] :: i in s.closers[c].todo && i != s.closers[c].todo[0]
  {
    var todo := s.closers[c].todo;
    assert SubOk(s, todo[0]);
    OnList(s, todo[0], c);
    HeadCount(todo, todo[0]);
  }

  lemma HeadCloser(s: State, a: Action)
    requires Handshake(s) && Can(s, a) && OnHead(a)
    ensures CloserOk(Apply(s, a), Apply(s, a).closers[a.c])
  {
    assert CloserOk(s, s.closers[a.c]);
    HeadFrame(s, a);
    HeadOnce(s, a.c);
  }

  /** A closer is not touched by what happens to a subscriber off its list. */
  lemma OffList(s: State, t: State, i: nat, x: Closer)
    requires CloserOk(s, x) && i < |s.subs| == |t.subs| && t.subs == s.subs[i := t.subs[i]] && t.closed == s.closed
    requires Busy(x) ==> i !in x.todo
    requires s.subs[i].chClosed ==> t.subs[i].chClosed
    ensures CloserOk(t, x)
  {
    if Busy(x) && x.todo != [] {
      assert x.todo[0] in x.todo && forall j | j in x.todo[1..] :: j in x.todo;
    }
  }

  lemma HeadOther(s: State, a: Action, d: nat)
    requires Handshake(s) && Can(s, a) && OnHead(a) && d < |s.closers| && d != a.c
    ensures d < |Apply(s, a).closers| && CloserOk(Apply(s, a), Apply(s, a).closers[d])
  {
    var i := s.closers[a.c].todo[0];
    assert CloserOk(s, s.closers[a.c]) && CloserOk(s, s.closers[d]);
    HeadFrame(s, a);
    if Busy(s.closers[d]) {
      OneList(s, i, a.c, d);
    }
    OffList(s, Apply(s, a), i, s.closers[d]);
  }

  lemma HeadStep(s: State, a: Action)
    requires Handshake(s) && Can(s, a) && OnHead(a)
    ensures Handshake(Apply(s, a))
  {
    var t := Apply(s, a);
    assert CloserOk(s, s.closers[a.c]);
    HeadFrame(s, a);
    SumUpdate(s.closers, a.c, t.closers[a.c], HoldsLock);
    forall i | 0 <= i < |t.subs|
      ensures SubOk(t, i)
    {
      HeadSub(s, a, i);
    }
    forall d | 0 <= d < |t.closers|
      ensures CloserOk(t, t.closers[d])
    {
      if d == a.c {
        HeadCloser(s, a);
      } else {
        HeadOther(s, a, d);
      }
    }
    PubsKept(s, t);
  }

  lemma FinishSub(s: State, c: nat, i: nat)
    requires Can(s, Finish(c)) && i < |s.subs| && SubOk(s, i)
    ensures SubOk(Apply(s, Finish(c)), i)
  {
    SumUpdate(s.closers, c, Apply(s, Finish(c)).closers[c], Owns(i));
  }

  lemma FinishStep(s: State, c: nat)
    requires Handshake(s) && Can(s, Finish(c))
    ensures Handshake(Apply(s, Finish(c)))
  {
    var t := Apply(s, Finish(c));
    assert CloserOk(s, s.closers[c]);
    SumUpdate(s.closers, c, t.closers[c], HoldsLock);
    SumAtLeast(s.closers, c, HoldsLock);
    forall i | 0 <= i < |t.subs|
      ensures SubOk(t, i)
    {
      FinishSub(s, c, i);
    }
    forall d | 0 <= d < |t.closers|
      ensures CloserOk(t, t.closers[d])
    {
      if d != c {
        CloserKept(s, t, s.closers[d]);
      }
    }
    PubsKept(s, t);
  }

  // ------------------------------------------------- calls and receivers

  lemma SubscribeStep(s: State)
    requires Handshake(s) && Can(s, Subscribe)
    ensures Handshake(Apply(s, Subscribe))
  {
    var t := Apply(s, Subscribe);
    var n := |s.subs|;
    if !s.closed {
      NobodyBusy(s);
      forall i | 0 <= i < |t.subs|
        ensures SubOk(t, i)
      {
        if i < n {
          assert SubOk(s, i);
        } else {
          SumConstant(s.closers, 0, Owns(n));
          forall g | 0 <= g < |s.pubs|
            ensures CountedOn(n)(s.pubs[g]) == 0
          {
            assert PubOk(s, s.pubs[g]);
            assert Counts(s.pubs[g].pc) ==> s.pubs[g].pc.todo[0] in s.pubs[g].pc.todo;
          }
          SumConstant(s.pubs, 0, CountedOn(n));
        }
      }
      forall c | 0 <= c < |t.closers|
        ensures CloserOk(t, t.closers[c])
      {
        assert CloserOk(s, s.closers[c]);
      }
      PubsKept(s, t);
    }
  }

  lemma NewCloserSub(s: State, x: Closer, i: nat)
    requires i < |s.subs| && SubOk(s, i) && x.Want?
    ensures SubOk(s.(closers := s.closers + [x]), i)
  {
    SumAppend(s.closers, x, Owns(i));
  }

  lemma NewCloserOk(s: State, x: Closer, y: Closer)
    requires CloserOk(s, y)
    ensures CloserOk(s.(closers := s.closers + [x]), y)
  {
  }

  lemma NewCloserStep(s: State, x: Closer)
    requires Handshake(s) && x.Want? && (x.kind.One? ==> x.kind.id < |s.subs|)
    ensures Handshake(s.(closers := s.closers + [x]))
  {
    var t := s.(closers := s.closers + [x]);
    SumAppend(s.closers, x, HoldsLock);
    forall i | 0 <= i < |t.subs|
      ensures SubOk(t, i)
    {
      NewCloserSub(s, x, i);
    }
    forall c | 0 <= c < |t.closers|
      ensures CloserOk(t, t.closers[c])
    {
      if c < |s.closers| {
        NewCloserOk(s, x, s.closers[c]);
      }
    }
    PubsKept(s, t);
  }

  lemma ReceiveSub(s: State, i: nat, j: nat)
    requires Can(s, Receive(i)) && j < |s.subs| && SubOk(s, j)
    ensures SubOk(Apply(s, Receive(i)), j)
  {
    assert s.subs[i].queue == [s.subs[i].queue[0]] + s.subs[i].queue[1..];
  }

  lemma ReceiveStep(s: State, i: nat)
    requires Handshake(s) && Can(s, Receive(i))
    ensures Handshake(Apply(s, Receive(i)))
  {
    var t := Apply(s, Receive(i));
    forall j | 0 <= j < |t.subs|
      ensures SubOk(t, j)
    {
      ReceiveSub(s, i, j);
    }
    forall c | 0 <= c < |t.closers|
      ensures CloserOk(t, t.closers[c])
    {
      assert CloserOk(s, s.closers[c]);
    }
    PubsKept(s, t);
  }

  /** Every step of every publisher, subscriber and closer keeps the handshake. */
  lemma HandshakeStep(s: State, a: Action)
    requires Handshake(s) && Can(s, a)
    ensures Handshake(Apply(s, a))
  {
    if ByPublisher(a) {
      PublisherStep(s, a);
    } else if OnHead(a) {
      HeadStep(s, a);
    } else {
      match a {
        case UnsubscribeLock(c) => UnsubscribeLockStep(s, c);
        case CloseLock(c, order) => CloseLockStep(s, c, order);
        case Finish(c) => FinishStep(s, c);
        case Subscribe => SubscribeStep(s);
        case Receive(i) => ReceiveStep(s, i);
        case CallUnsubscribe(id) => NewCloserStep(s, Want(One(id)));
        case CallClose => NewCloserStep(s, Want(All));
      }
    }
  }

  lemma HandshakeInit(s: State)
    requires Init(s)
    ensures Handshake(s)
  {
    SumConstant(s.closers, 0, HoldsLock);
  }

  // ----------------------------------------------------------- channel safety

  /** A closer waits for, or is done waiting for, the senders of subscriber i. */
  ghost predicate WaitsFor(s: State, i: nat) {
    exists c :: 0 <= c < |s.closers| && (s.closers[c].Waiting? || s.closers[c].Ending?)
      && s.closers[c].todo != [] && s.closers[c].todo[0] == i
  }

  /** What would panic in Go, or break a WaitGroup: a send on a closed channel,
      closing a channel twice, a negative counter, or an Add concurrent with or
      after the Wait it should precede. */
  ghost predicate Panics(s: State, a: Action)
    requires Can(s, a)
  {
    match a
    case Accept(g) => HeadOf(s, g).chClosed
    case Handoff(g) => HeadOf(s, g).chClosed
    case GiveUp(g) => HeadOf(s, g).chClosed       // the select's send case alone would panic
    case CloseCh(c) => s.subs[s.closers[c].todo[0]].chClosed || s.subs[s.closers[c].todo[0]].wg > 0
    case Leave(g) => s.subs[s.pubs[g].pc.todo[0]].wg == 0
    case BeginSend(g) =>
      && Apply(s, a).pubs[g].pc.Selecting?
      && (WaitsFor(s, s.pubs[g].pc.todo[0]) || s.subs[s.pubs[g].pc.todo[0]].chClosed)
    case _ => false
  }

  /** No interleaving panics: a counted sender keeps its channel open, the one closer
      that owns a channel closes it at count zero, once, and nobody is counted
      once a closer waits. */
  lemma NeverPanics(s: State, a: Action)
    requires Handshake(s) && Can(s, a)
    ensures !Panics(s, a)
  {
    if a.Accept? || a.Handoff? || a.GiveUp? {
      var i := s.pubs[a.g].pc.todo[0];
      assert SubOk(s, i);
      SumAtLeast(s.pubs, a.g, CountedOn(i));
    } else if a.Leave? {
      LeaveCounts(s, a.g);
    } else if a.CloseCh? {
      assert CloserOk(s, s.closers[a.c]);
      var i := s.closers[a.c].todo[0];
      OnList(s, i, a.c);
    } else if a.BeginSend? && Apply(s, a).pubs[a.g].pc.Selecting? {
      NoLateAdd(s, a.g);
    }
  }

  lemma NoLateAdd(s: State, g: nat)
    requires Handshake(s) && Can(s, BeginSend(g)) && s.pubs[g].pc.todo != []
    requires !s.subs[s.pubs[g].pc.todo[0]].closed
    ensures !WaitsFor(s, s.pubs[g].pc.todo[0]) && !s.subs[s.pubs[g].pc.todo[0]].chClosed
  {
    var i := s.pubs[g].pc.todo[0];
    assert SubOk(s, i);
    forall c | 0 <= c < |s.closers| && (s.closers[c].Waiting? || s.closers[c].Ending?) && s.closers[c].todo != []
      ensures s.closers[c].todo[0] != i
    {
      assert CloserOk(s, s.closers[c]);
    }
  }

  lemma LeaveCounts(s: State, g: nat)
    requires Handshake(s) && g < |s.pubs| && s.pubs[g].pc.Leaving?
    ensures HeadOk(s, s.pubs[g].pc.todo) && s.subs[s.pubs[g].pc.todo[0]].wg > 0
  {
    assert PubOk(s, s.pubs[g]);
    var i := s.pubs[g].pc.todo[0];
    assert i in s.pubs[g].pc.todo;
    assert SubOk(s, i);
    SumAtLeast(s.pubs, g, CountedOn(i));
  }

  /** A deferred wg.Done can always be done and never finds the counter at zero. */
  lemma LeaveReady(s: State, g: nat)
    requires Handshake(s) && g < |s.pubs| && s.pubs[g].pc.Leaving?
    ensures Can(s, Leave(g)) && !Panics(s, Leave(g))
  {
    LeaveCounts(s, g);
  }

  /** A subscriber on the list of an Unsubscribe is its own, and the write lock is
      held, so Close has not begun. */
  lemma UnsubscribeOwns(s: State, i: nat, d: nat)
    requires Handshake(s) && d < |s.closers| && Busy(s.closers[d]) && s.closers[d].kind.One? && i in s.closers[d].todo
    ensures i == s.closers[d].kind.id && s.locked && !s.closed
  {
    assert CloserOk(s, s.closers[d]);
    SumAtLeast(s.closers, d, HoldsLock);
  }

  /** While one Unsubscribe of a subscriber has it on its list, every other is still
      to begin. */
  lemma OthersWait(s: State, c: nat, d: nat)
    requires Handshake(s) && c < |s.closers| && d < |s.closers| && c != d
    requires s.closers[c].kind.One? && s.closers[d].kind == s.closers[c].kind
    requires Busy(s.closers[c]) && s.closers[c].kind.id in s.closers[c].todo
    ensures s.closers[d].Want?
  {
    var id := s.closers[c].kind.id;
    assert CloserOk(s, s.closers[c]) && CloserOk(s, s.closers[d]);
    UnsubscribeOwns(s, id, c);
    assert SubOk(s, id);
    OnList(s, id, c);
    if Busy(s.closers[d]) {
      SumTwo(s.closers, if c < d then c else d, if c < d then d else c, HoldsLock);
    }
  }

  /** Close is under way and has yet to get to subscriber i. */
  ghost predicate CloseHas(s: State, i: nat) {
    exists d :: 0 <= d < |s.closers| && s.closers[d].kind.All? && Busy(s.closers[d]) && i in s.closers[d].todo
  }

  /** When an unsubscribe has returned, its subscriber's channel is open if and only
      if a Close under way has yet to get to it: no other Unsubscribe can be the one
      that is late. */
  lemma UnsubscribeCloses(s: State, c: nat)
    requires Handshake(s) && c < |s.closers| && s.closers[c].Returned? && s.closers[c].kind.One?
    ensures s.closers[c].kind.id < |s.subs|
    ensures !s.subs[s.closers[c].kind.id].chClosed <==> CloseHas(s, s.closers[c].kind.id)
    ensures !s.subs[s.closers[c].kind.id].chClosed ==> s.closed
  {
    assert CloserOk(s, s.closers[c]);
    var id := s.closers[c].kind.id;
    assert SubOk(s, id);
    if CloseHas(s, id) {
      var d :| 0 <= d < |s.closers| && s.closers[d].kind.All? && Busy(s.closers[d]) && id in s.closers[d].todo;
      OnList(s, id, d);
    }
    if !s.subs[id].chClosed {
      var d := SumWitness(s.closers, Owns(id));
      assert Busy(s.closers[d]) && id in s.closers[d].todo;
      if s.closers[d].kind.One? {
        UnsubscribeOwns(s, id, d);
      }
    }
  }

  // ------------------------------------------------------- no deadlock

  predicate Open(c: Closer) {
    !c.Returned?
  }

  /** A counted sender on a subscriber being closed can leave without b.mu. */
  lemma SenderCanLeave(s: State, g: nat, i: nat) returns (a: Action)
    requires Handshake(s) && g < |s.pubs| && i < |s.subs| && CountedOn(i)(s.pubs[g]) > 0 && s.subs[i].closed
    ensures !IsCall(a) && !IsReceiver(a) && Can(s, a) && (a == GiveUp(g) || a == Leave(g))
  {
    if s.pubs[g].pc.Selecting? {
      a := GiveUp(g);
    } else {
      LeaveReady(s, g);
      a := Leave(g);
    }
  }

  /** The order in which a range over a set of subscribers may visit them. */
  lemma {:induction false} SomeOrder(registry: set<nat>) returns (order: seq<nat>)
    ensures Lists(order, registry) && |order| == |registry|
    decreases registry
  {
    if registry == {} {
      order := [];
    } else {
      var i :| i in registry;
      var rest := SomeOrder(registry - {i});
      order := [i] + rest;
      assert forall j | j in rest :: j in registry - {i};
    }
  }

  /** A closer that has begun closing can go on, or a sender can leave its way. */
  lemma BusyProgress(s: State, c: nat) returns (a: Action)
    requires Handshake(s) && c < |s.closers| && Busy(s.closers[c])
    ensures !IsCall(a) && !IsReceiver(a) && Can(s, a)
    ensures ByCloser(a) || a.GiveUp? || a.Leave?
  {
    assert CloserOk(s, s.closers[c]);
    var x := s.closers[c];
    assert x.todo != [] ==> x.todo[0] in x.todo;
    if x.Loop? {
      a := if x.todo == [] then Finish(c) else Shut(c);
    } else if x.Ending? {
      a := CloseCh(c);
    } else {
      var i := x.todo[0];
      assert SubOk(s, i);
      if s.subs[i].wg == 0 {
        a := WaitOver(c);
      } else {
        var g := SumWitness(s.pubs, CountedOn(i));
        a := SenderCanLeave(s, g, i);
      }
    }
  }

  /** No deadlock around the write lock: while any Unsubscribe or Close is
      unfinished, some step of a closer or of a leaving sender is possible,
      although the lock may be held by a closer that waits for senders. */
  lemma CloserProgress(s: State, c: nat) returns (a: Action)
    requires Handshake(s) && c < |s.closers| && Open(s.closers[c])
    ensures !IsCall(a) && !IsReceiver(a) && Can(s, a)
    ensures ByCloser(a) || a.GiveUp? || a.Leave?
  {
    if s.locked {
      var d := SumWitness(s.closers, HoldsLock);
      a := BusyProgress(s, d);
    } else if Busy(s.closers[c]) {
      a := BusyProgress(s, c);
    } else {
      var order := SomeOrder(s.registry);
      a := if s.closers[c].kind.One? then UnsubscribeLock(c) else CloseLock(c, order);
    }
  }

  /** A publisher is held up only by the write lock, whose holder or one of its
      senders can move, or by the full channel of an open subscriber. */
  lemma PublisherProgress(s: State, g: nat) returns (a: Action)
    requires Handshake(s) && g < |s.pubs| && !s.pubs[g].pc.Resting?
    requires s.pubs[g].pc.Selecting? ==> !Stalled(s, g)
    ensures !IsCall(a) && !IsReceiver(a) && Can(s, a)
  {
    assert PubOk(s, s.pubs[g]);
    var pc := s.pubs[g].pc;
    assert !pc.Snapping? && pc.todo != [] ==> pc.todo[0] in pc.todo;
    if s.locked && (pc.Snapping? || pc.Checking?) {
      var d := SumWitness(s.closers, HoldsLock);
      a := BusyProgress(s, d);
    } else {
      match pc {
        case Snapping =>
          var order := SomeOrder(s.registry);
          a := Snapshot(g, order);
        case Sending(_) => a := BeginSend(g);
        case Selecting(_) => a := if |HeadOf(s, g).queue| < s.buffer then Accept(g) else GiveUp(g);
        case Leaving(_, _) => LeaveReady(s, g); a := Leave(g);
        case Checking(_) => a := Check(g);
      }
    }
  }

  /** In a select none of whose cases is ready without a receiver. */
  predicate Stalled(s: State, g: nat) {
    SelectsOn(s, g) && !HeadOf(s, g).closed && !s.closed && |HeadOf(s, g).queue| >= s.buffer
  }
}
