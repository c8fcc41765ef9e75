/** examples/pipeline/pipeline.go: Source, Filter, Map and Collect, connected by three
    unbuffered channels, with cancellation at any moment.

    A rendezvous on a channel is one step of both its ends. A stage closes the
    channel it sends on when its goroutine exits; receiving from a channel
    whose sender has exited yields "closed". A select with several ready cases
    may take any of them.
 */
module Pipeline {
  import Runs

  /** A goroutine of Filter or Map: in its outer select, in its inner select with
      a value to send, or gone. */
  datatype Stage = Receiving | Holding(value: int) | Exited

  datatype Collector = Collecting | Returned(cancelled: bool)

  datatype State = State(
    input: seq<int>,
    keep: int -> bool,
    mapper: int -> int,
    pos: nat,                  // how many values Source has sent
    sourceExited: bool,
    filter: Stage,
    passed: seq<int>,          // what Filter has sent
    map_: Stage,
    values: seq<int>,          // what Collect has appended
    collector: Collector,
    cancelled: bool)

  datatype Action =
    | SourceSend | SourceEnd | SourceCancel
    | FilterSend | FilterEnd | FilterCancel
    | MapSend | MapEnd | MapCancel
    | CollectEnd | CollectCancel
    | Cancel

  predicate Can(s: State, a: Action) {
    match a
    case SourceSend => !s.sourceExited && s.pos < |s.input| && s.filter.Receiving?
    case SourceEnd => !s.sourceExited && s.pos == |s.input|
    case SourceCancel => !s.sourceExited && s.pos < |s.input| && s.cancelled
    case FilterSend => s.filter.Holding? && s.map_.Receiving?
    case FilterEnd => s.filter.Receiving? && s.sourceExited
    case FilterCancel => !s.filter.Exited? && s.cancelled
    case MapSend => s.map_.Holding? && s.collector.Collecting?
    case MapEnd => s.map_.Receiving? && s.filter.Exited?
    case MapCancel => !s.map_.Exited? && s.cancelled
    case CollectEnd => s.collector.Collecting? && s.map_.Exited?
    case CollectCancel => s.collector.Collecting? && s.cancelled
    case Cancel => !s.cancelled
  }

  function Apply(s: State, a: Action): State
    requires Can(s, a)
  {
    match a
    case SourceSend =>
      var v := s.input[s.pos];
      s.(pos := s.pos + 1, filter := if s.keep(v) then Holding(v) else Receiving)
    case SourceEnd => s.(sourceExited := true)
    case SourceCancel => s.(sourceExited := true)
    case FilterSend =>
      var v := s.filter.value;
      s.(filter := Receiving, passed := s.passed + [v], map_ := Holding(s.mapper(v)))
    case FilterEnd => s.(filter := Exited)
    case FilterCancel => s.(filter := Exited)
    case MapSend => s.(map_ := Receiving, values := s.values + [s.map_.value])
    case MapEnd => s.(map_ := Exited)
    case MapCancel => s.(map_ := Exited)
    case CollectEnd => s.(collector := Returned(s.cancelled))
    case CollectCancel => s.(collector := Returned(true))
    case Cancel => s.(cancelled := true)
  }

  ghost predicate Next(s: State, t: State) {
    exists a :: Can(s, a) && t == Apply(s, a)
  }

  /** A step of one of the goroutines: everything but the cancellation. */
  ghost predicate Moves(s: State, t: State) {
    exists a :: a != Cancel && Can(s, a) && t == Apply(s, a)
  }

  ghost predicate Init(s: State) {
    && s.pos == 0 && !s.sourceExited && s.filter == Receiving && s.passed == []
    && s.map_ == Receiving && s.values == [] && s.collector == Collecting
  }

  // ------------------------------------------------------ what is computed

  function Filtered(xs: seq<int>, keep: int -> bool): seq<int> {
    if xs == [] then []
    else
      var rest := Filtered(xs[..|xs| - 1], keep);
      var last := xs[|xs| - 1];
      if keep(last) then rest + [last] else rest
  }

  function Mapped(xs: seq<int>, mapper: int -> int): seq<int> {
    seq(|xs|, i requires 0 <= i < |xs| => mapper(xs[i]))
  }

  /** The result of the whole pipeline. */
  function Expected(s: State): seq<int> {
    Mapped(Filtered(s.input, s.keep), s.mapper)
  }

  lemma FilteredStep(xs: seq<int>, n: nat, keep: int -> bool)
    requires n < |xs|
    ensures Filtered(xs[..n + 1], keep)
         == if keep(xs[n]) then Filtered(xs[..n], keep) + [xs[n]] else Filtered(xs[..n], keep)
  {
    assert xs[..n + 1][..n] == xs[..n];
  }

  lemma {:induction false} FilteredPrefix(xs: seq<int>, n: nat, keep: int -> bool)
    requires n <= |xs|
    ensures Filtered(xs[..n], keep) <= Filtered(xs, keep)
    decreases |xs| - n
  {
    if n == |xs| {
      assert xs[..n] == xs;
    } else {
      FilteredPrefix(xs, n + 1, keep);
      FilteredStep(xs, n, keep);
    }
  }

  // --------------------------------------------------------------- invariant

  function Held(x: Stage): seq<int> {
    if x.Holding? then [x.value] else []
  }

  /** What Filter has sent and still holds is the filtered part of what it got; a
      filter that is gone has lost something only to cancellation. */
  ghost predicate FilterOk(s: State) {
    && s.pos <= |s.input|
    && var got := Filtered(s.input[..s.pos], s.keep);
    && s.passed + Held(s.filter) <= got
    && (!s.filter.Exited? ==> s.passed + Held(s.filter) == got)
    && (!s.cancelled && s.filter.Exited? ==> s.sourceExited && s.passed == got)
    && (!s.cancelled && s.sourceExited ==> s.pos == |s.input|)
  }

  ghost predicate MapOk(s: State) {
    var got := Mapped(s.passed, s.mapper);
    && s.values + Held(s.map_) <= got
    && (!s.map_.Exited? ==> s.values + Held(s.map_) == got)
    && (!s.cancelled && s.map_.Exited? ==> s.filter.Exited? && s.values == got)
  }

  ghost predicate CollectOk(s: State) {
    && (s.collector == Returned(true) ==> s.cancelled)
    && (s.collector == Returned(false) ==>
          && s.sourceExited && s.filter.Exited? && s.map_.Exited?
          && s.values == Expected(s))
  }

  ghost predicate Inv(s: State) {
    FilterOk(s) && MapOk(s) && CollectOk(s)
  }

  lemma InvStep(s: State, a: Action)
    requires Inv(s) && Can(s, a)
    ensures Inv(Apply(s, a))
  {
    match a {
      case SourceSend => FilteredStep(s.input, s.pos, s.keep);
      case FilterSend => FilterSendStep(s);
      case CollectEnd => assert s.input[..|s.input|] == s.input;
      case _ =>
    }
  }

  lemma FilterSendStep(s: State)
    requires Inv(s) && Can(s, FilterSend)
    ensures Inv(Apply(s, FilterSend))
  {
    var t := Apply(s, FilterSend);
    assert t.passed + Held(t.filter) == s.passed + Held(s.filter);
    assert Mapped(t.passed, s.mapper) == Mapped(s.passed, s.mapper) + [s.mapper(s.filter.value)];
    assert t.values + Held(t.map_) == Mapped(t.passed, s.mapper);
  }

  /** Steps left: a value not yet sent can take three more hops. */
  function Measure(s: State): nat {
    (if s.sourceExited || s.pos > |s.input| then 0 else 4 * (|s.input| - s.pos) + 1)
    + (match s.filter case Receiving => 1 case Holding(_) => 4 case Exited => 0)
    + (match s.map_ case Receiving => 1 case Holding(_) => 2 case Exited => 0)
    + (if s.collector.Collecting? then 1 else 0)
    + (if s.cancelled then 0 else 1)
  }

  lemma MeasureStep(s: State, a: Action)
    requires Can(s, a)
    ensures Measure(Apply(s, a)) < Measure(s)
  {
  }

  lemma NextStep(s: State, t: State)
    requires Inv(s) && Next(s, t)
    ensures Inv(t) && Measure(t) < Measure(s)
  {
    var a :| Can(s, a) && t == Apply(s, a);
    InvStep(s, a);
    MeasureStep(s, a);
  }

  /** Every goroutine of the pipeline has returned, so each of the three channels
      has been closed by its one sender. */
  ghost predicate AllDone(s: State) {
    s.sourceExited && s.filter.Exited? && s.map_.Exited? && s.collector.Returned?
  }

  /** No deadlock and no leaked goroutine, cancelled or not. */
  lemma Progress(s: State) returns (a: Action)
    requires Inv(s) && !AllDone(s)
    ensures a != Cancel && Can(s, a)
  {
    if s.cancelled {
      a := if !s.filter.Exited? then FilterCancel
           else if !s.map_.Exited? then MapCancel
           else if s.collector.Collecting? then CollectCancel
           else if s.pos < |s.input| then SourceCancel
           else SourceEnd;
    } else if s.map_.Exited? {
      a := CollectEnd;
    } else if s.map_.Holding? {
      a := MapSend;
    } else if s.filter.Exited? {
      a := MapEnd;
    } else if s.filter.Holding? {
      a := FilterSend;
    } else {
      a := if s.sourceExited then FilterEnd else if s.pos < |s.input| then SourceSend else SourceEnd;
    }
  }

  // ------------------------------------------------------------ main results

  /** In every state the values collected are a prefix of the expected result. */
  lemma CollectsPrefix(s: State)
    requires Inv(s)
    ensures s.values <= Expected(s)
  {
    FilteredPrefix(s.input, s.pos, s.keep);
    var f := Filtered(s.input, s.keep);
    assert s.passed <= f;
    assert Mapped(s.passed, s.mapper) <= Mapped(f, s.mapper);
  }

  lemma SameInput(run: seq<State>)
    requires Runs.IsRun(Next, run)
    ensures Expected(Runs.Last(run)) == Expected(run[0])
  {
    var same := (s: State) => s.input == run[0].input && s.keep == run[0].keep && s.mapper == run[0].mapper;
    forall s, t | same(s) && Next(s, t)
      ensures same(t)
    {
    }
    Runs.Always(Next, same, run);
    assert same(Runs.Last(run));
  }

  /** Every schedule of the four goroutines, whenever the context is cancelled, is
      finite; one that cannot be continued has everyone returned; its values are
      a prefix of the expected ones; and they are all of them if Collect
      reported no error, which it does whenever there was no cancellation. */
  lemma EveryRun(run: seq<State>)
    requires Runs.IsRun(Next, run) && Init(run[0])
    ensures |run| <= 4 * |run[0].input| + 6
    ensures var s := Runs.Last(run);
      && s.values <= Expected(run[0])
      && (s.collector == Returned(false) ==> s.values == Expected(run[0]))
      && (s.collector == Returned(true) ==> s.cancelled)
      && (Runs.Complete(Moves, run) ==> AllDone(s))
  {
    assert Inv(run[0]);
    forall s, t | Inv(s) && Next(s, t)
      ensures Inv(t) && Measure(t) < Measure(s)
    {
      NextStep(s, t);
    }
    Runs.Bounded(Next, Inv, Measure, run);
    Runs.Always(Next, Inv, run);
    var s := Runs.Last(run);
    SameInput(run);
    CollectsPrefix(s);
    if !AllDone(s) {
      var a := Progress(s);
      assert Moves(s, Apply(s, a));
    }
  }

  // --------------------------------------------------------------- the stages

  /** The goroutines of one Run, each with the local variables of its loop. */
  class Network {
    const input: seq<int>
    const keep: int -> bool
    const mapper: int -> int
    var pos: nat
    var sourceExited: bool
    var filter: Stage
    var map_: Stage
    var collector: Collector
    var values: seq<int>
    var cancelled: bool
    ghost var passed: seq<int>

    ghost function View(): State
      reads this
    {
      State(input, keep, mapper, pos, sourceExited, filter, passed, map_, values, collector, cancelled)
    }

    constructor (input: seq<int>, keep: int -> bool, mapper: int -> int)
      ensures Init(View()) && Inv(View())
      ensures this.input == input && this.keep == keep && this.mapper == mapper && !cancelled
    {
      this.input, this.keep, this.mapper := input, keep, mapper;
      pos, sourceExited, filter, passed, map_ := 0, false, Receiving, [], Receiving;
      values, collector, cancelled := [], Collecting, false;
    }

    /** The loop of Source (pipeline.go:16-22). */
    method SourceStep(cancel: bool)
      requires Can(View(), SourceSend) || Can(View(), SourceEnd) || Can(View(), SourceCancel)
      modifies this
      ensures Next(old(View()), View()) && cancelled == old(cancelled)
    {
      ghost var before := View();
      if pos == |input| {
        sourceExited := true;
        assert View() == Apply(before, SourceEnd);
      } else if cancelled && (cancel || !filter.Receiving?) {
        sourceExited := true;
        assert View() == Apply(before, SourceCancel);
      } else {
        var value := input[pos];
        pos := pos + 1;
        if keep(value) {
          filter := Holding(value);
        }
        assert View() == Apply(before, SourceSend);
      }
    }

    /** The loop of Filter (pipeline.go:40-58), apart from its receive. */
    method FilterStep(cancel: bool)
      requires Can(View(), FilterSend) || Can(View(), FilterEnd) || Can(View(), FilterCancel)
      modifies this
      ensures Next(old(View()), View()) && cancelled == old(cancelled)
    {
      ghost var before := View();
      if cancelled && (cancel || !((filter.Receiving? && sourceExited) || (filter.Holding? && map_.Receiving?))) {
        filter := Exited;
        assert View() == Apply(before, FilterCancel);
      } else if filter.Receiving? {
        filter := Exited;
        assert View() == Apply(before, FilterEnd);
      } else {
        passed := passed + [filter.value];
        map_ := Holding(mapper(filter.value));
        filter := Receiving;
        assert View() == Apply(before, FilterSend);
      }
    }

    /** The loop of Map (pipeline.go:76-94), apart from its receive. */
    method MapStep(cancel: bool)
      requires Can(View(), MapSend) || Can(View(), MapEnd) || Can(View(), MapCancel)
      modifies this
      ensures Next(old(View()), View()) && cancelled == old(cancelled)
    {
      ghost var before := View();
      if cancelled && (cancel || !((map_.Receiving? && filter.Exited?) || (map_.Holding? && collector.Collecting?))) {
        map_ := Exited;
        assert View() == Apply(before, MapCancel);
      } else if map_.Receiving? {
        map_ := Exited;
        assert View() == Apply(before, MapEnd);
      } else {
        values := values + [map_.value];
        map_ := Receiving;
        assert View() == Apply(before, MapSend);
      }
    }

    /** The two ways in which the loop of Collect ends (pipeline.go:111-119). */
    method CollectStep(cancel: bool)
      requires Can(View(), CollectEnd) || Can(View(), CollectCancel)
      modifies this
      ensures Next(old(View()), View()) && cancelled == old(cancelled)
    {
      ghost var before := View();
      if cancelled && (cancel || !map_.Exited?) {
        collector := Returned(true);
        assert View() == Apply(before, CollectCancel);
      } else {
        collector := Returned(cancelled);
        assert View() == Apply(before, CollectEnd);
      }
    }

    method CancelContext()
      requires !cancelled
      modifies this
      ensures Next(old(View()), View()) && cancelled
    {
      ghost var before := View();
      cancelled := true;
      assert View() == Apply(before, Cancel);
    }

    /** One turn of an arbitrary scheduler; `pick` numbers the goroutine it favours. */
    method Turn(pick: nat, cancel: bool, interrupt: bool)
      requires Inv(View()) && !AllDone(View())
      modifies this
      ensures Next(old(View()), View()) && (!interrupt ==> cancelled == old(cancelled))
    {
      ghost var a := Progress(View());
      var source := !sourceExited && (pos == |input| || cancelled || filter.Receiving?);
      var filtering :=
        (filter.Holding? && (map_.Receiving? || cancelled)) || (filter.Receiving? && (sourceExited || cancelled));
      var mapping :=
        (map_.Holding? && (collector.Collecting? || cancelled)) || (map_.Receiving? && (filter.Exited? || cancelled));
      var collecting := collector.Collecting? && (map_.Exited? || cancelled);
      if interrupt && !cancelled {
        CancelContext();
      } else if source && (pick == 0 || !(filtering || mapping || collecting)) {
        SourceStep(cancel);
      } else if filtering && (pick == 1 || !(mapping || collecting)) {
        FilterStep(cancel);
      } else if mapping && (pick == 2 || !collecting) {
        MapStep(cancel);
      } else {
        CollectStep(cancel);
      }
    }
  }

  predicate Positive(v: int) {
    v > 0
  }

  /** value * value (pipeline.go:144) in 64-bit arithmetic. */
  function Square(v: int): int {
    (v * v + 0x8000_0000_0000_0000) % 0x1_0000_0000_0000_0000 - 0x8000_0000_0000_0000
  }

  /** `Run` (pipeline.go:133-148) under an arbitrary scheduler and cancellation at an
      arbitrary moment: it returns what Collect has got by the end of its schedule,
      which is the squares of the positive inputs, in order, or, with an error, the
      first so many of them. */
  method Run(input: seq<int>, cancelledBefore: bool)
    returns (values: seq<int>, err: bool, cancelled: bool, ghost run: seq<State>)
    ensures values <= Mapped(Filtered(input, Positive), Square)
    ensures !err ==> values == Mapped(Filtered(input, Positive), Square)
    ensures err ==> cancelled
    ensures cancelledBefore ==> err && values == []
    ensures !cancelledBefore ==>
      && Runs.IsRun(Next, run) && Init(run[0])
      && run[0].input == input && run[0].keep == Positive && run[0].mapper == Square
      && AllDone(Runs.Last(run))
      && values == Runs.Last(run).values && err == Runs.Last(run).collector.cancelled
      && cancelled == Runs.Last(run).cancelled
  {
    cancelled, run := cancelledBefore, [];
    if cancelledBefore {
      return [], true, cancelled, run;
    }
    var n := new Network(input, Positive, Square);
    run := Serve(n);
    CollectsPrefix(n.View());
    values, err, cancelled := n.values, n.collector.cancelled, n.cancelled;
  }

  /** Runs the network to its end and hands back the schedule that was followed. */
  method Serve(n: Network) returns (ghost run: seq<State>)
    requires Inv(n.View())
    modifies n
    ensures Inv(n.View()) && AllDone(n.View())
    ensures Runs.IsRun(Next, run) && run[0] == old(n.View()) && Runs.Last(run) == n.View()
  {
    run := [n.View()];
    while !(n.sourceExited && n.filter.Exited? && n.map_.Exited? && n.collector.Returned?)
      invariant Inv(n.View())
      invariant Runs.IsRun(Next, run) && run[0] == old(n.View()) && Runs.Last(run) == n.View()
      decreases Measure(n.View())
    {
      ghost var before := n.View();
      var pick: nat, cancel: bool, interrupt: bool := *, *, *;
      n.Turn(pick, cancel, interrupt);
      NextStep(before, n.View());
      Runs.Extend(Next, run, n.View());
      run := run + [n.View()];
    }
  }
}
