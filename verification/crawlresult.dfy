/** What every crawl returns: termination and coverage of the link graph. */
module CrawlResult {
  import opened Sums
  import opened CrawlProtocol
  import Runs

  // ------------------------------------------------------------- termination

  /** The pages that can be mentioned at all: finitely many. */
  function Mentioned(cfg: Config): set<Url> {
    {cfg.start} +
    set p, i | p in cfg.pages && cfg.pages[p].Links? && 0 <= i < |cfg.pages[p].links| :: cfg.pages[p].links[i]
  }

  ghost predicate FanoutAtMost(pages: map<Url, Page>, keys: set<Url>, n: nat)
    requires keys <= pages.Keys
  {
    forall p | p in keys && pages[p].Links? :: |pages[p].links| <= n
  }

  lemma {:induction false} FanoutExists(pages: map<Url, Page>, keys: set<Url>) returns (n: nat)
    requires keys <= pages.Keys
    ensures FanoutAtMost(pages, keys, n)
    decreases keys
  {
    n := 0;
    if keys != {} {
      var p :| p in keys;
      n := FanoutExists(pages, keys - {p});
      if pages[p].Links? && |pages[p].links| > n {
        n := |pages[p].links|;
      }
    }
  }

  /** A bound on the number of links of one page. */
  ghost function Fanout(cfg: Config): (n: nat)
    ensures FanoutAtMost(cfg.pages, cfg.pages.Keys, n)
  {
    assert exists n: nat :: FanoutAtMost(cfg.pages, cfg.pages.Keys, n) by {
      var n := FanoutExists(cfg.pages, cfg.pages.Keys);
    }
    var n: nat :| FanoutAtMost(cfg.pages, cfg.pages.Keys, n);
    n
  }

  /** Steps a worker has left in its job, with fan-out at most k. */
  function Rank(k: nat): Worker -> nat {
    (w: Worker) => match w
      case Exited => 0
      case Idle => 1
      case Finishing(_) => 2
      case Failed(_) => 3
      case Linking(_, rest) => 3 + |rest|
      case Fetching(_) => 4 + k
      case Start(_) => 5 + k
      case Added(_, rest, _) => 9 + k + |rest|
      case Marked(_, rest, _) => 10 + k + |rest|
  }

  function MainRank(m: Main, k: nat): nat {
    match m
    case Enqueueing => 11
    case MainMarked => 10 + k
    case MainAdded => 9 + k
    case Waiting => 3
    case Closing => 2
    case Joining => 1
    case Returned => 0
  }

  ghost function Unseen(s: State): nat {
    |Mentioned(s.cfg) - s.scheduled.Keys|
  }

  function Times(a: nat, b: nat): nat {
    if a == 0 then 0 else Times(a - 1, b) + b
  }

  /** Steps left if no further page is scheduled. */
  function Cost(s: State, k: nat): nat {
    Times(|s.senders|, 5 + k) + Sum(s.workers, Rank(k)) + MainRank(s.main, k) + if s.cancelled then 0 else 1
  }

  /** A page not yet seen stands for all the steps it may cause. */
  ghost function Total(s: State, k: nat): nat {
    Times(Unseen(s), 8 + k) + Cost(s, k)
  }

  ghost function Measure(s: State): nat {
    Total(s, Fanout(s.cfg))
  }

  ghost predicate Known(s: State) {
    s.scheduled.Keys <= Mentioned(s.cfg)
  }

  lemma EdgeMentioned(cfg: Config, p: Url, u: Url)
    requires Edge(cfg, p, u)
    ensures u in Mentioned(cfg)
  {
    var i :| 0 <= i < |cfg.pages[p].links| && cfg.pages[p].links[i] == u;
  }

  /** What one step newly schedules is a page mentioned somewhere. */
  lemma NewMentioned(s: State, a: Action, u: Url)
    requires Consistent(s) && Can(s, a) && u in Apply(s, a).scheduled && u !in s.scheduled
    ensures u in Mentioned(s.cfg) && (a.NextLink? || a.MainMark?)
    ensures Apply(s, a).scheduled.Keys == s.scheduled.Keys + {u}
  {
    if u != s.cfg.start {
      NewLink(s, a, u);
      EdgeMentioned(s.cfg, s.workers[a.w].job.url, u);
    }
  }

  lemma UnseenLess(all: set<Url>, seen: set<Url>, u: Url)
    requires u in all && u !in seen
    ensures |all - (seen + {u})| == |all - seen| - 1
  {
    assert all - seen == (all - (seen + {u})) + {u};
  }

  lemma UnseenStep(s: State, a: Action)
    requires Consistent(s) && Known(s) && Can(s, a)
    ensures Known(Apply(s, a))
    ensures Unseen(Apply(s, a)) == Unseen(s) - if Apply(s, a).scheduled.Keys == s.scheduled.Keys then 0 else 1
    ensures Apply(s, a).scheduled.Keys != s.scheduled.Keys ==> Unseen(s) > 0 && (a.NextLink? || a.MainMark?)
  {
    var t := Apply(s, a);
    Grows(s, a);
    Frame(s, a);
    if t.scheduled.Keys != s.scheduled.Keys {
      var u :| u in t.scheduled.Keys && u !in s.scheduled.Keys;
      NewMentioned(s, a, u);
      UnseenLess(Mentioned(s.cfg), s.scheduled.Keys, u);
    }
  }

  lemma CostMove(s: State, t: State, w: nat, k: nat)
    requires w < |s.workers| == |t.workers| && t.workers == s.workers[w := t.workers[w]]
    requires t.senders == s.senders && t.main == s.main && t.cancelled == s.cancelled
    ensures Cost(t, k) + Rank(k)(s.workers[w]) == Cost(s, k) + Rank(k)(t.workers[w])
  {
    SumUpdate(s.workers, w, t.workers[w], Rank(k));
  }

  lemma LinkCost(s: State, w: nat, k: nat)
    requires Can(s, NextLink(w))
    ensures var t := Link(s, w);
      if t.scheduled.Keys == s.scheduled.Keys then Cost(t, k) < Cost(s, k) else Cost(t, k) == Cost(s, k) + 6 + k
  {
    var t := Link(s, w);
    LinkFrame(s, w);
    CostMove(s, t, w, k);
    if t.workers[w].Marked? {
      assert s.workers[w].rest[0] in t.scheduled.Keys && s.workers[w].rest[0] !in s.scheduled.Keys;
    }
  }

  lemma TakeCost(s: State, w: nat, job: Job, k: nat)
    requires Can(s, Take(w, job))
    ensures Cost(Apply(s, Take(w, job)), k) < Cost(s, k)
  {
    SumUpdate(s.workers, w, Start(job), Rank(k));
    assert |s.senders - {job}| == |s.senders| - 1;
  }

  lemma SpawnCost(s: State, w: nat, k: nat)
    requires Can(s, Spawn(w))
    requires Job(s.workers[w].url, s.workers[w].job.depth + 1) !in s.senders
    ensures Cost(Apply(s, Spawn(w)), k) < Cost(s, k)
  {
    var t := Apply(s, Spawn(w));
    SumUpdate(s.workers, w, t.workers[w], Rank(k));
    assert |t.senders| == |s.senders| + 1;
  }

  lemma InnerCost(s: State, a: Action, k: nat)
    requires Can(s, a) && ByWorker(a) && !a.NextLink? && !a.Take? && !a.Spawn?
    requires FanoutAtMost(s.cfg.pages, s.cfg.pages.Keys, k)
    ensures Cost(Apply(s, a), k) < Cost(s, k)
  {
    var t := Apply(s, a);
    Frame(s, a);
    assert t.senders == s.senders && t.cancelled == s.cancelled;
    assert Rank(k)(t.workers[a.w]) < Rank(k)(s.workers[a.w]);
    SumUpdate(s.workers, a.w, t.workers[a.w], Rank(k));
  }

  lemma MainSpawnCost(s: State, k: nat)
    requires Can(s, MainSpawn)
    ensures Cost(Apply(s, MainSpawn), k) < Cost(s, k)
  {
    var t := Apply(s, MainSpawn);
    assert Job(s.cfg.start, 0) in s.senders ==> t.senders == s.senders;
    assert Times(|s.senders| + 1, 5 + k) == Times(|s.senders|, 5 + k) + 5 + k;
  }

  lemma DropCost(s: State, job: Job, k: nat)
    requires Can(s, Drop(job))
    ensures Cost(Apply(s, Drop(job)), k) < Cost(s, k)
  {
    assert |s.senders - {job}| == |s.senders| - 1;
  }

  lemma OtherCost(s: State, a: Action, k: nat)
    requires Can(s, a) && !ByWorker(a)
    ensures if a.MainMark? then Cost(Apply(s, a), k) < Cost(s, k) + 8 + k else Cost(Apply(s, a), k) < Cost(s, k)
  {
    if a.MainSpawn? {
      MainSpawnCost(s, k);
    } else if a.Drop? {
      DropCost(s, a.job, k);
    } else {
      var t := Apply(s, a);
      assert t.workers == s.workers && t.senders == s.senders;
    }
  }

  /** A step costs something, unless it schedules a page: then less than a page. */
  lemma CostStep(s: State, a: Action, k: nat)
    requires Consistent(s) && Located(s) && Can(s, a)
    requires FanoutAtMost(s.cfg.pages, s.cfg.pages.Keys, k)
    ensures Apply(s, a).scheduled.Keys == s.scheduled.Keys ==> Cost(Apply(s, a), k) < Cost(s, k)
    ensures Cost(Apply(s, a), k) < Cost(s, k) + 8 + k
  {
    if a.NextLink? {
      LinkCost(s, a.w, k);
    } else if a.Take? {
      TakeCost(s, a.w, a.job, k);
    } else if a.Spawn? {
      NotOffered(s, a.w);
      SpawnCost(s, a.w, k);
    } else if ByWorker(a) {
      InnerCost(s, a, k);
    } else {
      OtherCost(s, a, k);
      if a.MainMark? {
        assert s.cfg.start in Apply(s, a).scheduled.Keys;
        assert s.cfg.start !in s.scheduled.Keys;
      }
    }
  }

  /** A page fewer outweighs any cost below that of a page. */
  lemma Outweighs(unseen: nat, unseen': nat, page: nat, cost: nat, cost': nat)
    requires if unseen' == unseen then cost' < cost else unseen' == unseen - 1 && cost' < cost + page
    ensures Times(unseen', page) + cost' < Times(unseen, page) + cost
  {
  }

  lemma TotalStep(s: State, a: Action, k: nat)
    requires Consistent(s) && Located(s) && Known(s) && Can(s, a)
    requires FanoutAtMost(s.cfg.pages, s.cfg.pages.Keys, k)
    ensures Total(Apply(s, a), k) < Total(s, k)
  {
    var t := Apply(s, a);
    CostStep(s, a, k);
    UnseenStep(s, a);
    Outweighs(Unseen(s), Unseen(t), 8 + k, Cost(s, k), Cost(t, k));
  }

  ghost predicate Good(s: State) {
    Inv(s) && Known(s)
  }

  /** Every step keeps the invariants and lowers the measure. */
  lemma MeasureStep(s: State, a: Action)
    requires Good(s) && Can(s, a)
    ensures Good(Apply(s, a)) && Measure(Apply(s, a)) < Measure(s)
  {
    InvStep(s, a);
    UnseenStep(s, a);
    Frame(s, a);
    TotalStep(s, a, Fanout(s.cfg));
  }

  lemma NextStep(s: State, t: State)
    requires Good(s) && Next(s, t)
    ensures Good(t) && Measure(t) < Measure(s) && t.cfg == s.cfg
  {
    var a :| Can(s, a) && t == Apply(s, a);
    MeasureStep(s, a);
    Frame(s, a);
  }

  lemma GoodInit(s: State)
    requires Init(s)
    ensures Good(s)
  {
    InvInit(s);
  }

  /** Every schedule of a crawl is finite and, cancelled or not, one that cannot
      be continued has returned, with no goroutine left behind. */
  lemma Terminates(run: seq<State>)
    requires Runs.IsRun(Next, run) && Init(run[0])
    ensures |run| <= Measure(run[0]) + 1
    ensures Good(Runs.Last(run))
    ensures Runs.Complete(Moves, run) ==>
      var s := Runs.Last(run);
      && s.main.Returned? && s.closed && s.pending == 0
      && s.senders == {}
      && forall w | 0 <= w < |s.workers| :: s.workers[w].Exited?
  {
    GoodInit(run[0]);
    forall s, t | Good(s) && Next(s, t)
      ensures Good(t) && Measure(t) < Measure(s)
    {
      NextStep(s, t);
    }
    Runs.Bounded(Next, Good, Measure, run);
    Runs.Always(Next, Good, run);
    var s := Runs.Last(run);
    if s.main.Returned? {
      ZeroIsQuiet(s);
    } else {
      var a := Progress(s);
      assert Moves(s, Apply(s, a));
    }
  }

  // ---------------------------------------------------------------- coverage

  /** A walk over followed links that begins at the start page. */
  ghost predicate Walk(cfg: Config, path: seq<Url>) {
    && |path| > 0
    && path[0] == cfg.start
    && forall i | 0 < i < |path| :: Edge(cfg, path[i - 1], path[i])
  }

  ghost predicate Reaches(cfg: Config, path: seq<Url>, u: Url) {
    Walk(cfg, path) && path[|path| - 1] == u
  }

  /** No walk leaves the pages mentioned. */
  lemma {:induction false} WalkMentioned(cfg: Config, path: seq<Url>)
    requires Walk(cfg, path)
    ensures path[|path| - 1] in Mentioned(cfg)
  {
    var n := |path| - 1;
    if n > 0 {
      EdgeMentioned(cfg, path[n - 1], path[n]);
    }
  }

  lemma ReachesMentioned(cfg: Config, u: Url)
    ensures (exists path :: Reaches(cfg, path, u)) ==> u in Mentioned(cfg)
  {
    if exists path :: Reaches(cfg, path, u) {
      var path :| Reaches(cfg, path, u);
      WalkMentioned(cfg, path);
    }
  }

  /** All pages that some walk leads to: finitely many. */
  ghost function Reachable(cfg: Config): (r: set<Url>)
    ensures forall u :: u in r <==> exists path :: Reaches(cfg, path, u)
  {
    assert forall u :: (exists path :: Reaches(cfg, path, u)) ==> u in Mentioned(cfg) by {
      forall u
        ensures (exists path :: Reaches(cfg, path, u)) ==> u in Mentioned(cfg)
      {
        ReachesMentioned(cfg, u);
      }
    }
    set u | u in Mentioned(cfg) && exists path :: Reaches(cfg, path, u)
  }

  /** A scheduled page lies at the end of a walk as long as its recorded depth. */
  lemma {:induction false} WalkTo(s: State, u: Url) returns (path: seq<Url>)
    requires Inv(s) && u in s.scheduled
    ensures Reaches(s.cfg, path, u) && |path| <= s.scheduled[u] + 1
    decreases s.scheduled[u]
  {
    if u == s.cfg.start {
      path := [u];
    } else {
      assert Explained(s, u);
      var p :| Parent(s, p, u);
      var before := WalkTo(s, p);
      path := before + [u];
      forall i | 0 < i < |path|
        ensures Edge(s.cfg, path[i - 1], path[i])
      {
        if i < |before| {
          assert Edge(s.cfg, before[i - 1], before[i]);
        }
      }
    }
  }

  /** A page scheduled at depth d has d scheduled ancestors at smaller depths. */
  lemma {:induction false} Ancestry(s: State, u: Url) returns (line: set<Url>)
    requires Inv(s) && u in s.scheduled
    ensures line <= s.scheduled.Keys && |line| == s.scheduled[u] + 1
    ensures forall v | v in line :: s.scheduled[v] <= s.scheduled[u]
    decreases s.scheduled[u]
  {
    if u == s.cfg.start {
      line := {u};
    } else {
      assert Explained(s, u);
      var p :| Parent(s, p, u);
      var above := Ancestry(s, p);
      line := above + {u};
    }
  }

  /** The state in which Crawl has returned without having been cancelled. */
  ghost predicate Completed(s: State) {
    Good(s) && s.main.Returned? && !s.cancelled
  }

  lemma NothingUnderWay(s: State)
    requires Good(s) && s.main.Returned?
    ensures s.senders == {}
    ensures forall w | 0 <= w < |s.workers| :: !HasJob(s.workers[w])
    ensures forall u :: Spots(s, u) == multiset(s.fetched)[u]
  {
    ZeroIsQuiet(s);
    forall u
      ensures Spots(s, u) == multiset(s.fetched)[u]
    {
      SumConstant(s.workers, 0, Handles(u));
    }
  }

  lemma RecordsGrow(s: State, a: Action)
    requires Can(s, a)
    ensures s.fetched <= Apply(s, a).fetched && s.errors <= Apply(s, a).errors
  {
    if a.NextLink? {
      LinkFrame(s, a.w);
    }
  }

  /** Over every interleaving, cancelled or not, what was recorded is never lost: the
      pages fetched and the errors met up to any moment are those of each later one,
      and a page is among them from the moment its fetch begins. */
  lemma NothingForgotten(run: seq<State>, i: nat, j: nat, w: nat)
    requires Runs.IsRun(Next, run) && Init(run[0]) && i <= j < |run|
    ensures run[i].fetched <= run[j].fetched && run[i].errors <= run[j].errors
    ensures w < |run[i].workers| && run[i].workers[w].Fetching? ==> run[i].workers[w].job.url in run[j].fetched
  {
    var fetched, errors := run[i].fetched, run[i].errors;
    var kept := (s: State) => fetched <= s.fetched && errors <= s.errors;
    forall s, t | kept(s) && Next(s, t)
      ensures kept(t)
    {
      var a :| Can(s, a) && t == Apply(s, a);
      RecordsGrow(s, a);
    }
    assert Runs.IsRun(Next, run[i..]);
    Runs.Always(Next, kept, run[i..]);
    assert kept(run[i..][j - i]);
    if w < |run[i].workers| && run[i].workers[w].Fetching? {
      FetchingRecorded(run, i, w);
    }
  }

  lemma FetchingRecorded(run: seq<State>, i: nat, w: nat)
    requires Runs.IsRun(Next, run) && Init(run[0]) && i < |run|
    requires w < |run[i].workers| && run[i].workers[w].Fetching?
    ensures run[i].workers[w].job.url in run[i].fetched
  {
    GoodInit(run[0]);
    forall s, t | Good(s) && Next(s, t)
      ensures Good(t)
    {
      NextStep(s, t);
    }
    Runs.Always(Next, Good, run);
    assert Good(run[i]);
  }

  /** No page is fetched twice, and every page fetched is at the end of a walk of
      at most maxDepth links. This needs no luck with cancellation. */
  lemma FetchedOnce(s: State, u: Url)
    requires Good(s)
    ensures multiset(s.fetched)[u] <= 1
    ensures u in s.fetched ==> u in s.scheduled
    ensures u in s.fetched ==> exists path :: Reaches(s.cfg, path, u) && |path| <= s.cfg.maxDepth + 1
    ensures u in s.errors ==> u in s.fetched && PageOf(s.cfg, u).Broken?
  {
    assert SpotsOk(s, u);
    if u in s.fetched {
      var path := WalkTo(s, u);
    }
  }

  /** Without cancellation the pages fetched are the pages scheduled, and the
      errors are those of the broken ones. */
  lemma FetchedIsScheduled(s: State, u: Url)
    requires Completed(s)
    ensures u in s.fetched <==> u in s.scheduled
    ensures u in s.errors <==> u in s.fetched && PageOf(s.cfg, u).Broken?
  {
    NothingUnderWay(s);
    assert SpotsOk(s, u);
    assert forall w | 0 <= w < |s.workers| :: !WillReport(s.workers[w], u);
  }

  /** Exactly which pages a completed crawl visits: the start page, and every page
      linked from a visited one that was scheduled above the depth limit. */
  lemma VisitedIff(s: State, v: Url)
    requires Completed(s)
    ensures v in s.fetched <==>
      v == s.cfg.start
      || exists u :: u in s.fetched && u in s.scheduled && s.scheduled[u] < s.cfg.maxDepth && Edge(s.cfg, u, v)
  {
    FetchedIsScheduled(s, v);
    if v in s.fetched && v != s.cfg.start {
      assert Explained(s, v);
      var p :| Parent(s, p, v);
      assert s.scheduled[v] <= s.cfg.maxDepth;
    }
    if u :| u in s.fetched && u in s.scheduled && s.scheduled[u] < s.cfg.maxDepth && Edge(s.cfg, u, v) {
      NothingUnderWay(s);
      assert Followed(s, u, v);
    }
  }

  /** If no page was scheduled at the limit, the end of every walk was visited. */
  lemma {:induction false} WalkVisited(s: State, path: seq<Url>)
    requires Completed(s) && Walk(s.cfg, path)
    requires forall u | u in s.scheduled :: s.scheduled[u] < s.cfg.maxDepth
    ensures path[|path| - 1] in s.fetched
  {
    var n := |path| - 1;
    if n == 0 {
      VisitedIff(s, path[0]);
    } else {
      assert Walk(s.cfg, path[..n]);
      WalkVisited(s, path[..n]);
      FetchedIsScheduled(s, path[n - 1]);
      assert Edge(s.cfg, path[n - 1], path[n]);
      VisitedIff(s, path[n]);
    }
  }

  lemma ScheduledReachable(s: State)
    requires Good(s)
    ensures s.scheduled.Keys <= Reachable(s.cfg)
  {
    forall u | u in s.scheduled
      ensures u in Reachable(s.cfg)
    {
      var path := WalkTo(s, u);
    }
  }

  lemma SameSize(a: set<Url>, b: set<Url>)
    requires a <= b && |b| <= |a|
    ensures a == b
  {
    if x :| x in b && x !in a {
      assert a <= b - {x};
      assert b == (b - {x}) + {x};
      Smaller(a, b - {x});
    }
  }

  lemma {:induction false} Smaller(a: set<Url>, b: set<Url>)
    requires a <= b
    ensures |a| <= |b|
  {
    assert b == a + (b - a);
  }

  /** Full coverage: whenever the depth limit leaves room for all reachable pages
      in one line, every schedule visits exactly the reachable pages, whatever
      depths the race between workers assigned them. */
  lemma FullCoverage(s: State)
    requires Completed(s)
    requires |Reachable(s.cfg)| <= s.cfg.maxDepth + 1
    ensures (set u | u in s.fetched) == Reachable(s.cfg)
  {
    ScheduledReachable(s);
    assert (set u | u in s.fetched) == s.scheduled.Keys by {
      forall u
        ensures u in s.fetched <==> u in s.scheduled
      {
        FetchedIsScheduled(s, u);
      }
    }
    if u :| u in s.scheduled && s.scheduled[u] == s.cfg.maxDepth {
      var line := Ancestry(s, u);
      Smaller(line, s.scheduled.Keys);
      SameSize(s.scheduled.Keys, Reachable(s.cfg));
    } else {
      forall u | u in Reachable(s.cfg)
        ensures u in s.scheduled
      {
        var path :| Reaches(s.cfg, path, u);
        WalkVisited(s, path);
      }
    }
  }

  /** Up to depth 1 the race cannot matter: a completed crawl visits a page if
      and only if it is at most maxDepth links away. */
  lemma ShallowCoverage(s: State, v: Url)
    requires Completed(s) && s.cfg.maxDepth <= 1
    ensures v in s.fetched <==> exists path :: Reaches(s.cfg, path, v) && |path| <= s.cfg.maxDepth + 1
  {
    FetchedOnce(s, v);
    if path :| Reaches(s.cfg, path, v) && |path| <= s.cfg.maxDepth + 1 {
      VisitedIff(s, s.cfg.start);
      if |path| == 2 {
        assert Edge(s.cfg, path[0], path[1]);
        VisitedIff(s, v);
      }
    }
  }
}
