/** examples/bankaccount/account.go: balances in 64-bit integers, one mutex per
    account, and transfers that lock two of them in the order of their sequence
    numbers.

    Accounts are numbered by that sequence. A Deposit, Withdraw or Balance is one
    critical section. A Transfer takes separate steps: both locks, the tests
    and the debit, the credit, and the two unlocks, with the account locked first
    unlocked first.
 */
module BankAccount {
  import opened Sums
  import Runs

  const MAX_INT64: int := 0x7FFF_FFFF_FFFF_FFFF
  const TWO_63: int := 0x8000_0000_0000_0000
  const TWO_64: int := 0x1_0000_0000_0000_0000

  /** What one 64-bit addition or subtraction leaves of its exact result, which is
      off the range by less than 2^64. */
  function Wrap(x: int): int {
    if x > MAX_INT64 then x - TWO_64 else if x < -TWO_63 then x + TWO_64 else x
  }

  /** account.go:198-200, with the subtraction in 64 bits. */
  predicate WouldOverflow(current: int, delta: int) {
    delta > Wrap(MAX_INT64 - current)
  }

  /** On balances the test means what it says: its own subtraction never wraps. */
  lemma OverflowTest(current: int, delta: int)
    requires 0 <= current <= MAX_INT64
    ensures WouldOverflow(current, delta) <==> current + delta > MAX_INT64
  {
  }

  datatype Option<T> = None | Some(value: T)

  datatype Error = InvalidAmount | SameAccount | InsufficientFunds | BalanceOverflow

  datatype Outcome = NoCall | Ok | Err(error: Error)

  datatype Order = Order(from: nat, to: nat, amount: int)

  datatype Pc =
    | Resting(last: Outcome)
    | WantFirst(t: Order)                       // about to lock the lower account
    | WantSecond(t: Order)                      // holds it, about to lock the other
    | Testing(t: Order)                         // holds both
    | Crediting(t: Order)                       // debited, the credit is next
    | DropFirst(t: Order, result: Outcome)      // about to unlock the lower account
    | DropSecond(t: Order, result: Outcome)

  datatype State = State(
    balances: seq<int>,
    locked: seq<bool>,
    tellers: seq<Pc>,
    funds: int)                 // opening balances plus deposits less withdrawals

  datatype Action =
    | Deposit(i: nat, amount: int)
    | Withdraw(i: nat, amount: int)
    | CallTransfer(g: nat, t: Order)
    | LockFirst(g: nat)
    | LockSecond(g: nat)
    | Test(g: nat)
    | Credit(g: nat)
    | UnlockFirst(g: nat)
    | UnlockSecond(g: nat)

  /** lockOrder (account.go:186-192). */
  function First(t: Order): nat {
    if t.from < t.to then t.from else t.to
  }

  function Second(t: Order): nat {
    if t.from < t.to then t.to else t.from
  }

  predicate At(s: State, g: nat) {
    g < |s.tellers| && |s.locked| == |s.balances| &&
    (!s.tellers[g].Resting? ==> s.tellers[g].t.from < |s.balances| && s.tellers[g].t.to < |s.balances|)
  }

  predicate Can(s: State, a: Action) {
    match a
    case Deposit(i, _) => i < |s.balances| == |s.locked| && !s.locked[i]
    case Withdraw(i, _) => i < |s.balances| == |s.locked| && !s.locked[i]
    case CallTransfer(g, t) =>
      At(s, g) && s.tellers[g].Resting? && t.from < |s.balances| && t.to < |s.balances| && t.amount <= MAX_INT64
    case LockFirst(g) => At(s, g) && s.tellers[g].WantFirst? && !s.locked[First(s.tellers[g].t)]
    case LockSecond(g) => At(s, g) && s.tellers[g].WantSecond? && !s.locked[Second(s.tellers[g].t)]
    case Test(g) => At(s, g) && s.tellers[g].Testing?
    case Credit(g) => At(s, g) && s.tellers[g].Crediting?
    case UnlockFirst(g) => At(s, g) && s.tellers[g].DropFirst?
    case UnlockSecond(g) => At(s, g) && s.tellers[g].DropSecond?
  }

  function DepositOutcome(balance: int, amount: int): Outcome {
    if amount <= 0 then Err(InvalidAmount) else if WouldOverflow(balance, amount) then Err(BalanceOverflow) else Ok
  }

  function WithdrawOutcome(balance: int, amount: int): Outcome {
    if amount <= 0 then Err(InvalidAmount) else if balance < amount then Err(InsufficientFunds) else Ok
  }

  function TransferOutcome(from: int, to: int, amount: int): Outcome {
    if from < amount then Err(InsufficientFunds) else if WouldOverflow(to, amount) then Err(BalanceOverflow) else Ok
  }

  function Goto(s: State, g: nat, pc: Pc): State
    requires g < |s.tellers|
  {
    s.(tellers := s.tellers[g := pc])
  }

  function Apply(s: State, a: Action): State
    requires Can(s, a)
  {
    match a
    case Deposit(i, amount) =>
      if DepositOutcome(s.balances[i], amount) != Ok then s
      else s.(balances := s.balances[i := Wrap(s.balances[i] + amount)], funds := s.funds + amount)
    case Withdraw(i, amount) =>
      if WithdrawOutcome(s.balances[i], amount) != Ok then s
      else s.(balances := s.balances[i := Wrap(s.balances[i] - amount)], funds := s.funds - amount)
    case CallTransfer(g, t) =>
      Goto(s, g,
        if t.amount <= 0 then Resting(Err(InvalidAmount))
        else if t.from == t.to then Resting(Err(SameAccount))
        else WantFirst(t))
    case LockFirst(g) =>
      var t := s.tellers[g].t;
      Goto(s, g, WantSecond(t)).(locked := s.locked[First(t) := true])
    case LockSecond(g) =>
      var t := s.tellers[g].t;
      Goto(s, g, Testing(t)).(locked := s.locked[Second(t) := true])
    case Test(g) =>
      var t := s.tellers[g].t;
      var r := TransferOutcome(s.balances[t.from], s.balances[t.to], t.amount);
      if r != Ok then Goto(s, g, DropFirst(t, r))
      else Goto(s, g, Crediting(t)).(balances := s.balances[t.from := Wrap(s.balances[t.from] - t.amount)])
    case Credit(g) =>
      var t := s.tellers[g].t;
      Goto(s, g, DropFirst(t, Ok)).(balances := s.balances[t.to := Wrap(s.balances[t.to] + t.amount)])
    case UnlockFirst(g) =>
      var pc := s.tellers[g];
      Goto(s, g, DropSecond(pc.t, pc.result)).(locked := s.locked[First(pc.t) := false])
    case UnlockSecond(g) =>
      var pc := s.tellers[g];
      Goto(s, g, Resting(pc.result)).(locked := s.locked[Second(pc.t) := false])
  }

  predicate IsCall(a: Action) {
    a.Deposit? || a.Withdraw? || a.CallTransfer?
  }

  ghost predicate Next(s: State, t: State) {
    exists a :: Can(s, a) && t == Apply(s, a)
  }

  /** A step of a transfer already under way. */
  ghost predicate Moves(s: State, t: State) {
    exists a :: !IsCall(a) && Can(s, a) && t == Apply(s, a)
  }

  function Exact(x: int): nat {
    if x < 0 then 0 else x
  }

  ghost predicate Init(s: State) {
    && |s.locked| == |s.balances|
    && (forall i | 0 <= i < |s.balances| :: 0 <= s.balances[i] <= MAX_INT64 && !s.locked[i])
    && (forall g | 0 <= g < |s.tellers| :: s.tellers[g] == Resting(NoCall))
    && s.funds == Sum(s.balances, Exact)
  }

  // -------------------------------------------------------------- invariant

  predicate HoldsFirst(pc: Pc) {
    pc.WantSecond? || pc.Testing? || pc.Crediting? || pc.DropFirst?
  }

  predicate HoldsSecond(pc: Pc) {
    pc.Testing? || pc.Crediting? || pc.DropFirst? || pc.DropSecond?
  }

  /** Weight 1 for a transfer that holds account i. */
  function Holds(i: nat): Pc -> nat {
    (pc: Pc) => if (HoldsFirst(pc) && First(pc.t) == i) || (HoldsSecond(pc) && Second(pc.t) == i) then 1 else 0
  }

  /** Money that has left one account and not reached the other. */
  function InTransit(pc: Pc): nat {
    if pc.Crediting? && pc.t.amount > 0 then pc.t.amount else 0
  }

  ghost predicate TellerOk(s: State, pc: Pc) {
    !pc.Resting? ==>
      && pc.t.from < |s.balances| && pc.t.to < |s.balances| && pc.t.from != pc.t.to
      && 0 < pc.t.amount <= MAX_INT64
      && (pc.Crediting? ==> s.balances[pc.t.to] + pc.t.amount <= MAX_INT64)
  }

  ghost predicate LockOk(s: State, i: nat)
    requires i < |s.locked|
  {
    (if s.locked[i] then 1 else 0) == Sum(s.tellers, Holds(i))
  }

  ghost predicate Inv(s: State) {
    && |s.locked| == |s.balances|
    && (forall i | 0 <= i < |s.balances| :: 0 <= s.balances[i] <= MAX_INT64)
    && (forall i | 0 <= i < |s.locked| :: LockOk(s, i))
    && (forall g | 0 <= g < |s.tellers| :: TellerOk(s, s.tellers[g]))
    && Sum(s.balances, Exact) + Sum(s.tellers, InTransit) == s.funds
  }

  lemma InvInit(s: State)
    requires Init(s)
    ensures Inv(s)
  {
    forall i | 0 <= i < |s.locked|
      ensures LockOk(s, i)
    {
      SumConstant(s.tellers, 0, Holds(i));
    }
    SumConstant(s.tellers, 0, InTransit);
  }

  /** An account that a teller holds is held by nobody else. */
  lemma SoleHolder(s: State, i: nat, g: nat, h: nat)
    requires Inv(s) && i < |s.locked| && g < |s.tellers| && h < |s.tellers| && g != h
    requires Holds(i)(s.tellers[g]) > 0
    ensures Holds(i)(s.tellers[h]) == 0 && s.locked[i]
  {
    assert LockOk(s, i);
    SumTwo(s.tellers, if g < h then g else h, if g < h then h else g, Holds(i));
  }

  lemma HolderLocked(s: State, i: nat, g: nat)
    requires Inv(s) && i < |s.locked| && g < |s.tellers| && Holds(i)(s.tellers[g]) > 0
    ensures s.locked[i]
  {
    assert LockOk(s, i);
    SumAtLeast(s.tellers, g, Holds(i));
  }

  /** A step that takes or releases account i is one of a teller that then holds
      it, or no longer does. */
  lemma TellerLock(s: State, a: Action, i: nat)
    requires Can(s, a) && !a.Deposit? && !a.Withdraw? && i < |s.locked|
    requires TellerOk(s, s.tellers[a.g])
    requires Holds(i)(s.tellers[a.g]) <= if s.locked[i] then 1 else 0
    ensures var t := Apply(s, a);
      && |t.locked| == |s.locked| && a.g < |t.tellers| && t.tellers == s.tellers[a.g := t.tellers[a.g]]
      && (if t.locked[i] then 1 else 0) + Holds(i)(s.tellers[a.g])
         == (if s.locked[i] then 1 else 0) + Holds(i)(t.tellers[a.g])
  {
  }

  lemma LocksStep(s: State, a: Action, i: nat)
    requires Inv(s) && Can(s, a) && i < |s.locked|
    ensures i < |Apply(s, a).locked| && LockOk(Apply(s, a), i)
  {
    assert LockOk(s, i);
    if !a.Deposit? && !a.Withdraw? {
      assert TellerOk(s, s.tellers[a.g]);
      SumAtLeast(s.tellers, a.g, Holds(i));
      TellerLock(s, a, i);
      SumUpdate(s.tellers, a.g, Apply(s, a).tellers[a.g], Holds(i));
    }
  }

  ghost predicate MoneyOk(s: State) {
    && (forall i | 0 <= i < |s.balances| :: 0 <= s.balances[i] <= MAX_INT64)
    && Sum(s.balances, Exact) + Sum(s.tellers, InTransit) == s.funds
  }

  lemma SingleMoney(s: State, a: Action)
    requires Inv(s) && Can(s, a) && (a.Deposit? || a.Withdraw?)
    ensures MoneyOk(Apply(s, a))
    ensures forall j | 0 <= j < |s.balances| && j != a.i :: Apply(s, a).balances[j] == s.balances[j]
  {
    var t := Apply(s, a);
    OverflowTest(s.balances[a.i], a.amount);
    if t != s {
      SumUpdate(s.balances, a.i, t.balances[a.i], Exact);
    }
  }

  /** Deposits and withdrawals: the account is unlocked, so no credit is due to it. */
  lemma SingleStep(s: State, a: Action)
    requires Inv(s) && Can(s, a) && (a.Deposit? || a.Withdraw?)
    ensures Inv(Apply(s, a))
  {
    var t := Apply(s, a);
    SingleMoney(s, a);
    assert t.tellers == s.tellers && t.locked == s.locked && |t.balances| == |s.balances|;
    forall i | 0 <= i < |t.locked|
      ensures LockOk(t, i)
    {
      assert LockOk(s, i);
    }
    forall g | 0 <= g < |t.tellers|
      ensures TellerOk(t, t.tellers[g])
    {
      assert TellerOk(s, s.tellers[g]);
      if s.tellers[g].Crediting? && s.tellers[g].t.to == a.i {
        HolderLocked(s, a.i, g);
      }
    }
  }

  lemma TestMoney(s: State, g: nat)
    requires Inv(s) && Can(s, Test(g))
    ensures MoneyOk(Apply(s, Test(g)))
  {
    var t := Apply(s, Test(g));
    var o := s.tellers[g].t;
    assert TellerOk(s, s.tellers[g]);
    SumUpdate(s.tellers, g, t.tellers[g], InTransit);
    if t.tellers[g].Crediting? {
      SumUpdate(s.balances, o.from, t.balances[o.from], Exact);
    }
  }

  lemma CreditMoney(s: State, g: nat)
    requires Inv(s) && Can(s, Credit(g))
    ensures MoneyOk(Apply(s, Credit(g)))
  {
    var t := Apply(s, Credit(g));
    var o := s.tellers[g].t;
    assert TellerOk(s, s.tellers[g]);
    SumUpdate(s.tellers, g, t.tellers[g], InTransit);
    SumUpdate(s.balances, o.to, t.balances[o.to], Exact);
  }

  /** The money in balances and in transit, and the range of every balance. */
  lemma MoneyStep(s: State, a: Action)
    requires Inv(s) && Can(s, a) && !a.Deposit? && !a.Withdraw?
    ensures MoneyOk(Apply(s, a))
  {
    if a.Test? {
      TestMoney(s, a.g);
    } else if a.Credit? {
      CreditMoney(s, a.g);
    } else {
      SumUpdate(s.tellers, a.g, Apply(s, a).tellers[a.g], InTransit);
    }
  }

  lemma TellerStep(s: State, a: Action, h: nat)
    requires Inv(s) && Can(s, a) && !a.Deposit? && !a.Withdraw? && h < |s.tellers|
    ensures TellerOk(Apply(s, a), Apply(s, a).tellers[h])
  {
    assert TellerOk(s, s.tellers[a.g]) && TellerOk(s, s.tellers[h]);
    if a.Test? {
      var o := s.tellers[a.g].t;
      OverflowTest(s.balances[o.to], o.amount);
    } else if a.Credit? && h != a.g && s.tellers[h].Crediting? {
      SoleHolder(s, s.tellers[a.g].t.to, a.g, h);
    }
  }

  lemma InvStep(s: State, a: Action)
    requires Inv(s) && Can(s, a)
    ensures Inv(Apply(s, a))
  {
    var t := Apply(s, a);
    if a.Deposit? || a.Withdraw? {
      SingleStep(s, a);
    } else {
      MoneyStep(s, a);
      forall i | 0 <= i < |t.locked|
        ensures LockOk(t, i)
      {
        LocksStep(s, a, i);
      }
      forall h | 0 <= h < |t.tellers|
        ensures TellerOk(t, t.tellers[h])
      {
        TellerStep(s, a, h);
      }
    }
  }

  // -------------------------------------------------- freedom from deadlock

  /** Following the account a transfer waits for to the transfer that holds it
      leads to ever higher accounts, and so to a transfer that can go on. */
  lemma {:induction false} Chase(s: State, g: nat) returns (a: Action)
    requires Inv(s) && g < |s.tellers| && s.tellers[g].WantSecond?
    ensures !IsCall(a) && Can(s, a)
    decreases |s.balances| - Second(s.tellers[g].t)
  {
    assert TellerOk(s, s.tellers[g]);
    var i := Second(s.tellers[g].t);
    if !s.locked[i] {
      a := LockSecond(g);
    } else {
      assert LockOk(s, i);
      var h := SumWitness(s.tellers, Holds(i));
      assert TellerOk(s, s.tellers[h]);
      if s.tellers[h].WantSecond? {
        a := Chase(s, h);
      } else {
        a := HolderMoves(s, h);
      }
    }
  }

  lemma HolderMoves(s: State, h: nat) returns (a: Action)
    requires Inv(s) && h < |s.tellers|
    requires s.tellers[h].Testing? || s.tellers[h].Crediting? || s.tellers[h].DropFirst? || s.tellers[h].DropSecond?
    ensures !IsCall(a) && Can(s, a) && a.g == h
  {
    assert TellerOk(s, s.tellers[h]);
    a := match s.tellers[h]
      case Testing(_) => Test(h)
      case Crediting(_) => Credit(h)
      case DropFirst(_, _) => UnlockFirst(h)
      case DropSecond(_, _) => UnlockSecond(h);
  }

  /** However transfers interleave, while one is under way some transfer can
      take a step. */
  lemma Progress(s: State, g: nat) returns (a: Action)
    requires Inv(s) && g < |s.tellers| && !s.tellers[g].Resting?
    ensures !IsCall(a) && Can(s, a)
  {
    assert TellerOk(s, s.tellers[g]);
    if s.tellers[g].WantSecond? {
      a := Chase(s, g);
    } else if s.tellers[g].WantFirst? {
      var i := First(s.tellers[g].t);
      if !s.locked[i] {
        a := LockFirst(g);
      } else {
        assert LockOk(s, i);
        var h := SumWitness(s.tellers, Holds(i));
        if s.tellers[h].WantSecond? {
          a := Chase(s, h);
        } else {
          a := HolderMoves(s, h);
        }
      }
    } else {
      a := HolderMoves(s, g);
    }
  }

  function Work(pc: Pc): nat {
    match pc
    case Resting(_) => 0
    case WantFirst(_) => 6
    case WantSecond(_) => 5
    case Testing(_) => 4
    case Crediting(_) => 3
    case DropFirst(_, _) => 2
    case DropSecond(_, _) => 1
  }

  function Measure(s: State): nat {
    Sum(s.tellers, Work)
  }

  lemma MeasureStep(s: State, a: Action)
    requires Can(s, a) && !IsCall(a)
    ensures Measure(Apply(s, a)) < Measure(s)
  {
    SumUpdate(s.tellers, a.g, Apply(s, a).tellers[a.g], Work);
  }

  /** Without new calls every schedule is finite and ends with every transfer
      returned, every account unlocked and all the money in the accounts. */
  lemma Settles(run: seq<State>)
    requires Runs.IsRun(Moves, run) && Inv(run[0])
    ensures |run| <= Measure(run[0]) + 1
    ensures Runs.Complete(Moves, run) ==>
      var s := Runs.Last(run);
      && (forall g | 0 <= g < |s.tellers| :: s.tellers[g].Resting?)
      && (forall i | 0 <= i < |s.locked| :: !s.locked[i])
      && Sum(s.balances, Exact) == s.funds
  {
    forall s, t | Inv(s) && Moves(s, t)
      ensures Inv(t) && Measure(t) < Measure(s)
    {
      var a :| !IsCall(a) && Can(s, a) && t == Apply(s, a);
      InvStep(s, a);
      MeasureStep(s, a);
    }
    Runs.Bounded(Moves, Inv, Measure, run);
    Runs.Always(Moves, Inv, run);
    if Runs.Complete(Moves, run) {
      SettledIfStuck(Runs.Last(run));
    }
  }

  lemma SettledIfStuck(s: State)
    requires Inv(s) && forall t :: !Moves(s, t)
    ensures forall g | 0 <= g < |s.tellers| :: s.tellers[g].Resting?
    ensures forall i | 0 <= i < |s.locked| :: !s.locked[i]
    ensures Sum(s.balances, Exact) == s.funds
  {
    forall g | 0 <= g < |s.tellers|
      ensures s.tellers[g].Resting?
    {
      if !s.tellers[g].Resting? {
        var a := Progress(s, g);
        assert Moves(s, Apply(s, a));
      }
    }
    SumConstant(s.tellers, 0, InTransit);
    forall i | 0 <= i < |s.locked|
      ensures !s.locked[i]
    {
      assert LockOk(s, i);
      SumConstant(s.tellers, 0, Holds(i));
    }
  }

  // ------------------------------------- refinement of an atomic bank

  /** Weight: what a transfer still owes to account i. */
  function DueTo(i: nat): Pc -> nat {
    (pc: Pc) => if pc.Crediting? && pc.t.to == i && pc.t.amount > 0 then pc.t.amount else 0
  }

  /** The balance of account i in a bank whose transfers happen at once. */
  function AtomicBalance(s: State, i: nat): int
    requires i < |s.balances|
  {
    s.balances[i] + Sum(s.tellers, DueTo(i))
  }

  /** What the atomic bank does in a step: a whole transfer, a deposit, a
      withdrawal, or nothing. */
  function AtomicChange(s: State, a: Action, i: nat): int
    requires Can(s, a)
  {
    match a
    case Deposit(j, amount) => if j == i && DepositOutcome(s.balances[j], amount) == Ok then amount else 0
    case Withdraw(j, amount) => if j == i && WithdrawOutcome(s.balances[j], amount) == Ok then -amount else 0
    case Test(g) =>
      var t := s.tellers[g].t;
      if TransferOutcome(s.balances[t.from], s.balances[t.to], t.amount) != Ok then 0
      else if i == t.from then -t.amount
      else if i == t.to then t.amount
      else 0
    case _ => 0
  }

  lemma SingleRefines(s: State, a: Action, i: nat)
    requires Inv(s) && Can(s, a) && i < |s.balances| && (a.Deposit? || a.Withdraw?)
    ensures i < |Apply(s, a).balances|
    ensures AtomicBalance(Apply(s, a), i) == AtomicBalance(s, i) + AtomicChange(s, a, i)
  {
    OverflowTest(s.balances[a.i], a.amount);
  }

  /** A teller's step, told by what it does to balance i and to what the teller owes. */
  lemma TellerRefines(s: State, a: Action, i: nat)
    requires Inv(s) && Can(s, a) && i < |s.balances| && !a.Deposit? && !a.Withdraw?
    ensures var t := Apply(s, a);
      && i < |t.balances| && a.g < |t.tellers| && t.tellers == s.tellers[a.g := t.tellers[a.g]]
      && t.balances[i] + DueTo(i)(t.tellers[a.g]) == s.balances[i] + DueTo(i)(s.tellers[a.g]) + AtomicChange(s, a, i)
  {
    assert TellerOk(s, s.tellers[a.g]);
    if a.Test? {
      var o := s.tellers[a.g].t;
      OverflowTest(s.balances[o.to], o.amount);
    }
  }

  /** Every step of every interleaving is one step of the atomic bank, or none. */
  lemma Refines(s: State, a: Action, i: nat)
    requires Inv(s) && Can(s, a) && i < |s.balances|
    ensures i < |Apply(s, a).balances|
    ensures AtomicBalance(Apply(s, a), i) == AtomicBalance(s, i) + AtomicChange(s, a, i)
  {
    if a.Deposit? || a.Withdraw? {
      SingleRefines(s, a, i);
    } else {
      TellerRefines(s, a, i);
      SumUpdate(s.tellers, a.g, Apply(s, a).tellers[a.g], DueTo(i));
    }
  }

  /** Nobody sees a transfer half done: the balance of an account that can be
      locked is its balance in the atomic bank, and so are the two balances that
      a transfer tests. */
  lemma SeesAtomic(s: State, i: nat)
    requires Inv(s) && i < |s.balances|
    requires !s.locked[i] || exists g :: 0 <= g < |s.tellers| && s.tellers[g].Testing? && Holds(i)(s.tellers[g]) > 0
    ensures s.balances[i] == AtomicBalance(s, i)
  {
    forall h | 0 <= h < |s.tellers|
      ensures DueTo(i)(s.tellers[h]) == 0
    {
      assert TellerOk(s, s.tellers[h]);
      if s.tellers[h].Crediting? && s.tellers[h].t.to == i {
        HolderLocked(s, i, h);
        var g :| 0 <= g < |s.tellers| && s.tellers[g].Testing? && Holds(i)(s.tellers[g]) > 0;
        SoleHolder(s, i, g, h);
      }
    }
    SumConstant(s.tellers, 0, DueTo(i));
  }

  // --------------------------------------------- what a Transfer returns

  /** What a transfer of the atomic bank says to its two balances. */
  function Verdict(from: int, to: int, amount: int): Outcome {
    if from < amount then Err(InsufficientFunds)
    else if to + amount > MAX_INT64 then Err(BalanceOverflow)
    else Ok
  }

  /** What a transfer that succeeds does to account i. */
  function Moved(t: Order, i: nat): int {
    if i == t.from then -t.amount else if i == t.to then t.amount else 0
  }

  function MovedIf(r: Outcome, t: Order, i: nat): int {
    if r == Ok then Moved(t, i) else 0
  }

  /** The test decides by the balances of the atomic bank, although it reads those
      in memory and guards against overflow by a subtraction. */
  lemma TestDecides(s: State, g: nat, i: nat)
    requires Inv(s) && Can(s, Test(g))
    ensures var t := s.tellers[g].t;
      t.from < |s.balances| && t.to < |s.balances| &&
      var r := Verdict(AtomicBalance(s, t.from), AtomicBalance(s, t.to), t.amount);
      && Apply(s, Test(g)).tellers[g] == (if r == Ok then Crediting(t) else DropFirst(t, r))
      && AtomicChange(s, Test(g), i) == MovedIf(r, t, i)
  {
    var t := s.tellers[g].t;
    assert TellerOk(s, s.tellers[g]);
    assert Holds(t.from)(s.tellers[g]) > 0 && Holds(t.to)(s.tellers[g]) > 0;
    SeesAtomic(s, t.from);
    SeesAtomic(s, t.to);
    OverflowTest(s.balances[t.to], t.amount);
  }

  ghost predicate Steps(s: State, a: Action, t: State) {
    Can(s, a) && t == Apply(s, a)
  }

  predicate Of(a: Action, g: nat) {
    !a.Deposit? && !a.Withdraw? && a.g == g
  }

  /** What the steps of teller g alone do to account i of the atomic bank. */
  ghost function OwnChange(run: seq<State>, acts: seq<Action>, g: nat, i: nat): int
    requires Runs.IsTrace(Steps, run, acts)
    decreases |acts|
  {
    if acts == [] then 0
    else
      var n := |acts| - 1;
      Runs.Shorter(Steps, run, acts);
      OwnChange(run[..n + 1], acts[..n], g, i) + if Of(acts[n], g) then AtomicChange(run[n], acts[n], i) else 0
  }

  /** A single call of Transfer by teller g: it begins with the first action. */
  ghost predicate OneCall(run: seq<State>, acts: seq<Action>, g: nat, t: Order) {
    && Runs.IsTrace(Steps, run, acts) && Inv(run[0])
    && acts != [] && acts[0] == CallTransfer(g, t)
    && forall k | 0 < k < |acts| :: !(acts[k].CallTransfer? && acts[k].g == g)
  }

  /** The one test of the call is action k, and its verdict is r. */
  ghost predicate Tested(run: seq<State>, acts: seq<Action>, g: nat, t: Order, k: nat, r: Outcome)
    requires |run| == |acts| + 1
  {
    && k < |acts| && acts[k] == Test(g)
    && (forall j | 0 <= j < |acts| && j != k :: acts[j] != Test(g))
    && t.from < |run[k].balances| && t.to < |run[k].balances|
    && r == Verdict(AtomicBalance(run[k], t.from), AtomicBalance(run[k], t.to), t.amount)
  }

  ghost predicate NoTest(acts: seq<Action>, g: nat) {
    forall j | 0 <= j < |acts| :: acts[j] != Test(g)
  }

  predicate BeforeTest(pc: Pc) {
    pc.WantFirst? || pc.WantSecond? || pc.Testing?
  }

  /** The outcome a teller has settled on, once it has. */
  function Settled(pc: Pc): Outcome
    requires !BeforeTest(pc)
  {
    match pc
    case Crediting(_) => Ok
    case DropFirst(_, r) => r
    case DropSecond(_, r) => r
    case Resting(r) => r
  }

  /** How far the call has come, what it has moved, and why. */
  ghost predicate CallOk(run: seq<State>, acts: seq<Action>, g: nat, t: Order, i: nat, k: nat)
    requires OneCall(run, acts, g, t)
  {
    var s := Runs.Last(run);
    && Inv(s) && g < |s.tellers|
    && var pc := s.tellers[g];
       var moved := OwnChange(run, acts, g, i);
    if t.amount <= 0 || t.from == t.to then
      && pc == Resting(Err(if t.amount <= 0 then InvalidAmount else SameAccount))
      && moved == 0 && NoTest(acts, g)
    else
      && (!pc.Resting? ==> pc.t == t)
      && if BeforeTest(pc) then moved == 0 && NoTest(acts, g)
         else Tested(run, acts, g, t, k, Settled(pc)) && moved == MovedIf(Settled(pc), t, i)
  }

  lemma CallBegins(run: seq<State>, acts: seq<Action>, g: nat, t: Order, i: nat)
    requires OneCall(run, acts, g, t) && |acts| == 1
    ensures CallOk(run, acts, g, t, i, 0)
  {
    Runs.Shorter(Steps, run, acts);
    InvStep(run[0], acts[0]);
  }

  /** What the steps of others leave alone. */
  lemma OtherTeller(s: State, a: Action, g: nat)
    requires Can(s, a) && !Of(a, g) && g < |s.tellers|
    ensures |Apply(s, a).tellers| == |s.tellers| && Apply(s, a).tellers[g] == s.tellers[g]
  {
  }

  /** A teller's own step after its call: only the test moves money, and the result
      it settles on stays. */
  lemma OwnTeller(s: State, a: Action, g: nat, i: nat)
    requires Can(s, a) && Of(a, g) && !a.CallTransfer? && !a.Test?
    ensures var pc, pc' := s.tellers[g], Apply(s, a).tellers[g];
      && AtomicChange(s, a, i) == 0
      && !pc.Resting? && (!pc'.Resting? ==> pc'.t == pc.t)
      && (BeforeTest(pc) <==> BeforeTest(pc'))
      && (!BeforeTest(pc) ==> Settled(pc') == Settled(pc))
  {
  }

  /** One more action that is not g's test leaves the verdict as it is. */
  lemma TestedLater(run: seq<State>, acts: seq<Action>, g: nat, t: Order, k: nat, r: Outcome)
    requires |run| == |acts| + 1 && |acts| > 0 && acts[|acts| - 1] != Test(g)
    requires Tested(run[..|acts|], acts[..|acts| - 1], g, t, k, r)
    ensures Tested(run, acts, g, t, k, r)
  {
    var n := |acts| - 1;
    forall j | 0 <= j < |acts| && j != k
      ensures acts[j] != Test(g)
    {
      if j < n {
        assert acts[..n][j] != Test(g);
      }
    }
  }

  lemma NoTestLater(acts: seq<Action>, g: nat)
    requires |acts| > 0 && acts[|acts| - 1] != Test(g) && NoTest(acts[..|acts| - 1], g)
    ensures NoTest(acts, g)
  {
    forall j | 0 <= j < |acts|
      ensures acts[j] != Test(g)
    {
      if j < |acts| - 1 {
        assert acts[..|acts| - 1][j] != Test(g);
      }
    }
  }

  /** A single call cut short by its last action. */
  lemma CallShorter(run: seq<State>, acts: seq<Action>, g: nat, t: Order, i: nat)
    requires OneCall(run, acts, g, t) && |acts| > 1
    ensures var n := |acts| - 1;
      && OneCall(run[..n + 1], acts[..n], g, t)
      && Steps(run[n], acts[n], run[n + 1]) && Runs.Last(run[..n + 1]) == run[n]
      && OwnChange(run, acts, g, i)
         == OwnChange(run[..n + 1], acts[..n], g, i) + if Of(acts[n], g) then AtomicChange(run[n], acts[n], i) else 0
  {
    Runs.Shorter(Steps, run, acts);
  }

  /** A step other than g's test changes neither what was moved nor why. */
  lemma CallGoesOn(run: seq<State>, acts: seq<Action>, g: nat, t: Order, i: nat, k: nat)
    requires OneCall(run, acts, g, t) && |acts| > 1 && acts[|acts| - 1] != Test(g)
    requires OneCall(run[..|acts|], acts[..|acts| - 1], g, t) && CallOk(run[..|acts|], acts[..|acts| - 1], g, t, i, k)
    ensures CallOk(run, acts, g, t, i, k)
  {
    var n := |acts| - 1;
    CallShorter(run, acts, g, t, i);
    var s, a := run[n], acts[n];
    InvStep(s, a);
    if Of(a, g) {
      OwnTeller(s, a, g, i);
    } else {
      OtherTeller(s, a, g);
    }
    if BeforeTest(s.tellers[g]) || t.amount <= 0 || t.from == t.to {
      NoTestLater(acts, g);
    } else {
      TestedLater(run, acts, g, t, k, Settled(s.tellers[g]));
    }
  }

  lemma CallTests(run: seq<State>, acts: seq<Action>, g: nat, t: Order, i: nat, k: nat)
    requires OneCall(run, acts, g, t) && |acts| > 1 && acts[|acts| - 1] == Test(g)
    requires OneCall(run[..|acts|], acts[..|acts| - 1], g, t) && CallOk(run[..|acts|], acts[..|acts| - 1], g, t, i, k)
    ensures CallOk(run, acts, g, t, i, |acts| - 1)
  {
    var n := |acts| - 1;
    CallShorter(run, acts, g, t, i);
    InvStep(run[n], acts[n]);
    TestDecides(run[n], g, i);
    assert forall j | 0 <= j < n :: acts[j] == acts[..n][j];
  }

  lemma {:induction false} CallFollows(run: seq<State>, acts: seq<Action>, g: nat, t: Order, i: nat) returns (k: nat)
    requires OneCall(run, acts, g, t)
    ensures CallOk(run, acts, g, t, i, k)
    decreases |acts|
  {
    var n := |acts| - 1;
    if n == 0 {
      CallBegins(run, acts, g, t, i);
      k := 0;
    } else {
      CallShorter(run, acts, g, t, i);
      k := CallFollows(run[..n + 1], acts[..n], g, t, i);
      if acts[n] == Test(g) {
        CallTests(run, acts, g, t, i, k);
        k := n;
      } else {
        CallGoesOn(run, acts, g, t, i, k);
      }
    }
  }

  /** What Transfer returns, over every interleaving: from its call to its return its
      own steps move the amount if it returns nil, and nothing at all if it
      returns an error. The error is one of the arguments alone, or else exactly
      what the atomic balances at its single test, action k, call for. */
  ghost predicate Returned(run: seq<State>, acts: seq<Action>, g: nat, t: Order, r: Outcome, k: nat)
    requires Runs.IsTrace(Steps, run, acts)
  {
    && (forall i: nat :: OwnChange(run, acts, g, i) == MovedIf(r, t, i))
    && (r == Err(InvalidAmount) <==> t.amount <= 0)
    && (r == Err(SameAccount) <==> t.amount > 0 && t.from == t.to)
    && (t.amount > 0 && t.from != t.to ==> Tested(run, acts, g, t, k, r))
  }

  lemma TransferReturns(run: seq<State>, acts: seq<Action>, g: nat, t: Order) returns (k: nat)
    requires OneCall(run, acts, g, t) && g < |Runs.Last(run).tellers| && Runs.Last(run).tellers[g].Resting?
    ensures Returned(run, acts, g, t, Runs.Last(run).tellers[g].last, k)
  {
    k := CallFollows(run, acts, g, t, 0);
    forall i: nat
      ensures OwnChange(run, acts, g, i) == MovedIf(Runs.Last(run).tellers[g].last, t, i)
    {
      var _ := CallFollows(run, acts, g, t, i);
    }
  }

  lemma OneCallBegins(s: State, g: nat, t: Order)
    requires Inv(s) && Can(s, CallTransfer(g, t))
    ensures OneCall([s, Apply(s, CallTransfer(g, t))], [CallTransfer(g, t)], g, t)
  {
  }

  lemma OneCallExtend(run: seq<State>, acts: seq<Action>, g: nat, t: Order, a: Action, s: State)
    returns (run': seq<State>, acts': seq<Action>)
    requires OneCall(run, acts, g, t) && Steps(Runs.Last(run), a, s) && !IsCall(a)
    ensures OneCall(run', acts', g, t) && run'[0] == run[0] && Runs.Last(run') == s
  {
    Runs.TraceExtend(Steps, run, acts, a, s);
    run', acts' := run + [s], acts + [a];
  }

  /** Over every interleaving: the money in the accounts and between them is what
      was deposited less what was withdrawn, and every balance stays in range. */
  lemma Conserved(run: seq<State>, k: nat)
    requires Runs.IsRun(Next, run) && Init(run[0]) && k < |run|
    ensures Inv(run[k])
    ensures Sum(run[k].balances, Exact) + Sum(run[k].tellers, InTransit) == run[k].funds
  {
    InvInit(run[0]);
    forall s, t | Inv(s) && Next(s, t)
      ensures Inv(t)
    {
      var a :| Can(s, a) && t == Apply(s, a);
      InvStep(s, a);
    }
    Runs.Always(Next, Inv, run);
  }

  /** Transfers alone neither make nor lose money. */
  lemma TransfersConserve(s: State, a: Action)
    requires Inv(s) && Can(s, a) && !a.Deposit? && !a.Withdraw?
    ensures Sum(Apply(s, a).balances, Exact) + Sum(Apply(s, a).tellers, InTransit)
         == Sum(s.balances, Exact) + Sum(s.tellers, InTransit)
  {
    MoneyStep(s, a);
    assert Apply(s, a).funds == s.funds;
  }

  // --------------------------------------------------------------- the bank

  /** Accounts in the order of their sequence numbers, and the callers of Transfer. */
  class Bank {
    const balances: array<int>
    const locked: array<bool>
    var tellers: seq<Pc>
    ghost var funds: int

    ghost function View(): State
      reads this, balances, locked
    {
      State(balances[..], locked[..], tellers, funds)
    }

    /** Accounts opened by New with the given balances (account.go:60-73). */
    constructor (opening: seq<int>, callers: nat)
      requires forall i | 0 <= i < |opening| :: 0 <= opening[i] <= MAX_INT64
      ensures fresh(balances) && fresh(locked) && balances[..] == opening && |tellers| == callers
      ensures Init(View()) && Inv(View())
    {
      balances := new int[|opening|](i requires 0 <= i < |opening| => opening[i]);
      locked := new bool[|opening|](_ => false);
      tellers := seq(callers, _ => Resting(NoCall));
      funds := Sum(opening, Exact);
      new;
      assert balances[..] == opening;
      InvInit(View());
    }

    method DepositSection(i: nat, amount: int) returns (r: Outcome)
      requires Inv(View()) && Can(View(), Deposit(i, amount)) && amount <= MAX_INT64
      modifies this, balances
      ensures View() == Apply(old(View()), Deposit(i, amount)) && Inv(View())
      ensures r == Ok <==> amount > 0 && old(balances[i]) + amount <= MAX_INT64
      ensures balances[i] == old(balances[i]) + if r == Ok then amount else 0
      ensures r != Ok ==> r == Err(if amount <= 0 then InvalidAmount else BalanceOverflow)
    {
      InvStep(View(), Deposit(i, amount));
      OverflowTest(balances[i], amount);
      if amount <= 0 {
        return Err(InvalidAmount);
      }
      if WouldOverflow(balances[i], amount) {
        return Err(BalanceOverflow);
      }
      balances[i] := Wrap(balances[i] + amount);
      funds := funds + amount;
      return Ok;
    }

    method WithdrawSection(i: nat, amount: int) returns (r: Outcome)
      requires Inv(View()) && Can(View(), Withdraw(i, amount)) && amount <= MAX_INT64
      modifies this, balances
      ensures View() == Apply(old(View()), Withdraw(i, amount)) && Inv(View())
      ensures r == Ok <==> amount > 0 && amount <= old(balances[i])
      ensures balances[i] == old(balances[i]) - if r == Ok then amount else 0
      ensures r != Ok ==> r == Err(if amount <= 0 then InvalidAmount else InsufficientFunds)
    {
      InvStep(View(), Withdraw(i, amount));
      if amount <= 0 {
        return Err(InvalidAmount);
      }
      if balances[i] < amount {
        return Err(InsufficientFunds);
      }
      balances[i] := Wrap(balances[i] - amount);
      funds := funds - amount;
      return Ok;
    }

    /** Transfer up to its first Lock (account.go:154-168). */
    method BeginTransfer(g: nat, t: Order)
      requires Inv(View()) && Can(View(), CallTransfer(g, t))
      modifies this`tellers
      ensures View() == Apply(old(View()), CallTransfer(g, t)) && Inv(View())
    {
      InvStep(View(), CallTransfer(g, t));
      if t.amount <= 0 {
        tellers := tellers[g := Resting(Err(InvalidAmount))];
      } else if t.from == t.to {
        tellers := tellers[g := Resting(Err(SameAccount))];
      } else {
        tellers := tellers[g := WantFirst(t)];
      }
    }

    /** Whether transfer g is under way and not blocked on a mutex. */
    predicate Ready(g: nat)
      requires g < |tellers|
      reads this, locked
    {
      match tellers[g]
      case Resting(_) => false
      case WantFirst(t) => First(t) < locked.Length && !locked[First(t)]
      case WantSecond(t) => Second(t) < locked.Length && !locked[Second(t)]
      case _ => true
    }

    /** One step of Transfer (account.go:168-184). */
    method TransferStep(g: nat) returns (ghost a: Action)
      requires |balances[..]| == |locked[..]| && g < |tellers| && Ready(g) && At(View(), g)
      modifies this, balances, locked
      ensures !IsCall(a) && Can(old(View()), a) && View() == Apply(old(View()), a)
    {
      match tellers[g] {
        case WantFirst(t) =>
          a := LockFirst(g);
          locked[First(t)] := true;
          tellers := tellers[g := WantSecond(t)];
        case WantSecond(t) =>
          a := LockSecond(g);
          locked[Second(t)] := true;
          tellers := tellers[g := Testing(t)];
        case Testing(t) =>
          a := Test(g);
          if balances[t.from] < t.amount {
            tellers := tellers[g := DropFirst(t, Err(InsufficientFunds))];
            return;
          }
          if WouldOverflow(balances[t.to], t.amount) {
            tellers := tellers[g := DropFirst(t, Err(BalanceOverflow))];
            return;
          }
          balances[t.from] := Wrap(balances[t.from] - t.amount);
          tellers := tellers[g := Crediting(t)];
        case Crediting(t) =>
          a := Credit(g);
          balances[t.to] := Wrap(balances[t.to] + t.amount);
          tellers := tellers[g := DropFirst(t, Ok)];
        case DropFirst(t, result) =>
          a := UnlockFirst(g);
          locked[First(t)] := false;
          tellers := tellers[g := DropSecond(t, result)];
        case DropSecond(t, result) =>
          a := UnlockSecond(g);
          locked[Second(t)] := false;
          tellers := tellers[g := Resting(result)];
      }
    }

    lemma SomeoneReady(g: nat)
      requires Inv(View()) && g < |tellers| && !tellers[g].Resting?
      ensures exists h | 0 <= h < |tellers| :: Ready(h)
    {
      var a := Progress(View(), g);
      assert Ready(a.g);
    }

    /** One step of some transfer under way. */
    method Turn(some: nat) returns (ghost a: Action)
      requires Inv(View()) && some < |tellers| && !tellers[some].Resting?
      modifies this, balances, locked
      ensures !IsCall(a) && Can(old(View()), a) && View() == Apply(old(View()), a)
      ensures Inv(View()) && Measure(View()) < Measure(old(View())) && funds == old(funds)
    {
      SomeoneReady(some);
      var g :| 0 <= g < |tellers| && Ready(g);
      ghost var before := View();
      assert TellerOk(before, before.tellers[g]);
      a := TransferStep(g);
      InvStep(before, a);
      MeasureStep(before, a);
    }

    /** A turn, and the trace that it prolongs. */
    method TurnOf(g: nat, t: Order, ghost run: seq<State>, ghost acts: seq<Action>)
      returns (ghost run': seq<State>, ghost acts': seq<Action>)
      requires Inv(View()) && g < |tellers| && !tellers[g].Resting?
      requires OneCall(run, acts, g, t) && Runs.Last(run) == View()
      modifies this, balances, locked
      ensures Inv(View()) && g < |tellers| && Measure(View()) < Measure(old(View()))
      ensures OneCall(run', acts', g, t) && run'[0] == run[0] && Runs.Last(run') == View()
    {
      ghost var a := Turn(g);
      run', acts' := OneCallExtend(run, acts, g, t, a, View());
    }

    /** Lets an arbitrary scheduler run until the call of teller g has returned. */
    method Await(g: nat, t: Order, ghost run0: seq<State>, ghost acts0: seq<Action>)
      returns (ghost run: seq<State>, ghost acts: seq<Action>)
      requires Inv(View()) && g < |tellers|
      requires OneCall(run0, acts0, g, t) && Runs.Last(run0) == View()
      modifies this, balances, locked
      ensures Inv(View()) && g < |tellers| && tellers[g].Resting?
      ensures OneCall(run, acts, g, t) && run[0] == run0[0] && Runs.Last(run) == View()
    {
      run, acts := run0, acts0;
      while !tellers[g].Resting?
        invariant Inv(View()) && g < |tellers|
        invariant OneCall(run, acts, g, t) && run[0] == run0[0] && Runs.Last(run) == View()
        decreases Measure(View())
      {
        run, acts := TurnOf(g, t, run, acts);
      }
    }

    /** Transfer as its caller sees it, among any other transfers under way: it
        always returns, nil if and only if it moved the amount, and otherwise with
        the error that its arguments or the balances at its test call for. */
    method Transfer(g: nat, t: Order) returns (r: Outcome, ghost run: seq<State>, ghost acts: seq<Action>, ghost k: nat)
      requires Inv(View()) && Can(View(), CallTransfer(g, t))
      modifies this, balances, locked
      ensures Inv(View()) && g < |tellers| && tellers[g] == Resting(r)
      ensures OneCall(run, acts, g, t) && run[0] == old(View()) && Runs.Last(run) == View()
      ensures Returned(run, acts, g, t, r, k)
    {
      ghost var before := View();
      BeginTransfer(g, t);
      OneCallBegins(before, g, t);
      run, acts := Await(g, t, [before, View()], [CallTransfer(g, t)]);
      r := tellers[g].last;
      k := TransferReturns(run, acts, g, t);
    }

    /** Lets an arbitrary scheduler finish the transfers under way. */
    method Settle()
      requires Inv(View())
      modifies this, balances, locked
      ensures Inv(View()) && funds == old(funds)
      ensures forall g | 0 <= g < |tellers| :: tellers[g].Resting?
      ensures Sum(balances[..], Exact) == funds
    {
      while exists g | 0 <= g < |tellers| :: !tellers[g].Resting?
        invariant Inv(View()) && funds == old(funds)
        decreases Measure(View())
      {
        var some :| 0 <= some < |tellers| && !tellers[some].Resting?;
        ghost var a := Turn(some);
      }
      SumConstant(tellers, 0, InTransit);
    }
  }

  datatype OpenError = EmptyId(i: nat) | NegativeOpening(i: nat)

  /** New (account.go:60-73) for each account in turn, up to the first refusal. */
  method NewBank(ids: seq<string>, opening: seq<int>, callers: nat) returns (b: Bank?, err: Option<OpenError>)
    requires |ids| == |opening| && forall i | 0 <= i < |opening| :: -TWO_63 <= opening[i] <= MAX_INT64
    ensures b == null <==> err.Some?
    ensures err.None? <==> forall i | 0 <= i < |ids| :: ids[i] != "" && opening[i] >= 0
    ensures err.Some? ==>
      && var i := err.value.i;
      && i < |ids| && (forall j | 0 <= j < i :: ids[j] != "" && opening[j] >= 0)
      && (err.value.EmptyId? <==> ids[i] == "") && (err.value.NegativeOpening? ==> opening[i] < 0)
    ensures b != null ==> fresh(b) && b.balances[..] == opening && |b.tellers| == callers && Init(b.View())
  {
    for i := 0 to |ids|
      invariant forall j | 0 <= j < i :: ids[j] != "" && opening[j] >= 0
    {
      if ids[i] == "" {
        return null, Some(EmptyId(i));
      }
      if opening[i] < 0 {
        return null, Some(NegativeOpening(i));
      }
    }
    b := new Bank(opening, callers);
    err := None;
  }
}
