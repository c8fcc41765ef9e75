/** How far the documented promise of Crawl, "visits pages reachable from start up
    to maxDepth", holds of the code.

    A page keeps the depth of whichever discovery comes first (crawler.go:146-152),
    so a race can record a page deeper than it lies and lose pages behind it.
    The promise is proved to hold for every graph and every schedule if and only
    if maxDepth is at most 1, or it is 2 and there is a single worker.
 */
module CrawlRace {
  import opened CrawlProtocol
  import opened CrawlResult
  import Runs

  /** A completed, never cancelled crawl of cfg by n workers. */
  ghost predicate Crawled(cfg: Config, n: nat, run: seq<State>) {
    && Runs.IsRun(Next, run)
    && Init(run[0]) && run[0].cfg == cfg && |run[0].workers| == n
    && Runs.Last(run).main.Returned? && !Runs.Last(run).cancelled
  }

  ghost predicate Within(cfg: Config, v: Url) {
    exists path :: Reaches(cfg, path, v) && |path| <= cfg.maxDepth + 1
  }

  /** The promise, for n workers and depth limit d. */
  ghost predicate Promise(n: nat, d: nat) {
    forall cfg: Config, run: seq<State>, v: Url |
        cfg.maxDepth == d && Crawled(cfg, n, run) && Within(cfg, v) ::
      v in Runs.Last(run).fetched
  }

  // --------------------------------------------------------- one worker only

  /** With one worker, the links of the start page are all scheduled, at depth 1
      at most, before any other page is fetched. */
  ghost predicate StartFirst(s: State) {
    !s.cancelled ==> OnlyStart(s) || LinksDone(s)
  }

  ghost predicate OnlyStart(s: State) {
    forall u | u in s.fetched :: u == s.cfg.start
  }

  ghost predicate LinksDone(s: State) {
    forall v | Edge(s.cfg, s.cfg.start, v) :: v in s.scheduled && s.scheduled[v] <= 1
  }

  lemma LinksStayDone(s: State, t: State)
    requires LinksDone(s) && Extends(s, t)
    ensures LinksDone(t)
  {
    forall v | Edge(t.cfg, t.cfg.start, v)
      ensures v in t.scheduled && t.scheduled[v] <= 1
    {
      assert ScheduledAt(t, v, s.scheduled[v]);
    }
  }

  lemma StartFirstStep(s: State, a: Action)
    requires Good(s) && StartFirst(s) && Can(s, a) && |s.workers| == 1 && s.cfg.maxDepth > 0
    ensures StartFirst(Apply(s, a))
  {
    var t := Apply(s, a);
    Grows(s, a);
    if !s.cancelled && OnlyStart(s) && !OnlyStart(t) {
      var u :| u in t.fetched && u != t.cfg.start;
      NewFetch(s, a, u);
      StartDone(s, u);
    }
    if !s.cancelled && LinksDone(s) {
      LinksStayDone(s, t);
    }
    CancelStays(s, a);
  }

  lemma CancelStays(s: State, a: Action)
    requires Can(s, a)
    ensures s.cancelled ==> Apply(s, a).cancelled
  {
  }

  /** The only worker is about to record a second page: it has left the first. */
  lemma StartDone(s: State, u: Url)
    requires Good(s) && |s.workers| == 1 && s.cfg.maxDepth > 0 && !s.cancelled
    requires s.workers[0].Start? && s.workers[0].job.url == u != s.cfg.start
    requires OnlyStart(s)
    ensures LinksDone(s)
  {
    assert WorkerOk(s, s.workers[0]);
    assert Explained(s, u);
    var p :| Parent(s, p, u);
    assert p == s.cfg.start;
    forall v | Edge(s.cfg, s.cfg.start, v)
      ensures v in s.scheduled && s.scheduled[v] <= 1
    {
      assert Followed(s, s.cfg.start, v);
      assert forall w | 0 <= w < |s.workers| :: !WillFollow(s.workers[w], s.cfg.start, v);
      if v != s.cfg.start {
        assert Explained(s, v);
        var q :| Parent(s, q, v);
        assert q == s.cfg.start;
      }
    }
  }

  ghost predicate Alone(s: State) {
    Good(s) && |s.workers| == 1 && s.cfg.maxDepth > 0 && StartFirst(s)
  }

  /** One worker and depth 2: the first two levels get their true depth. */
  lemma OneWorkerDepthTwo(cfg: Config, run: seq<State>, v: Url)
    requires Crawled(cfg, 1, run) && cfg.maxDepth == 2 && Within(cfg, v)
    ensures v in Runs.Last(run).fetched
  {
    var s := Runs.Last(run);
    GoodRun(cfg, 1, run);
    GoodInit(run[0]);
    forall a, b | Alone(a) && Next(a, b)
      ensures Alone(b)
    {
      var act :| Can(a, act) && b == Apply(a, act);
      MeasureStep(a, act);
      Frame(a, act);
      StartFirstStep(a, act);
    }
    Runs.Always(Next, Alone, run);
    assert Alone(s);
    var path :| Reaches(cfg, path, v) && |path| <= 3;
    VisitedIff(s, cfg.start);
    if |path| >= 2 {
      assert Edge(cfg, path[0], path[1]);
      VisitedIff(s, path[1]);
      FetchedIsScheduled(s, path[1]);
      if |path| == 3 {
        assert Edge(cfg, path[1], path[2]);
        SecondLevel(s, path[1]);
        VisitedIff(s, path[2]);
      }
    }
  }

  lemma SecondLevel(s: State, u: Url)
    requires Alone(s) && Completed(s) && s.cfg.maxDepth == 2 && u in s.scheduled && Edge(s.cfg, s.cfg.start, u)
    ensures s.scheduled[u] <= 1
  {
    if u != s.cfg.start {
      FetchedIsScheduled(s, u);
      assert u in s.fetched;
    }
  }

  lemma GoodRun(cfg: Config, n: nat, run: seq<State>)
    requires Crawled(cfg, n, run)
    ensures Completed(Runs.Last(run)) && Runs.Last(run).cfg == cfg
  {
    Terminates(run);
    var same := (s: State) => s.cfg == run[0].cfg;
    forall s, t | same(s) && Next(s, t)
      ensures same(t)
    {
      var a :| Can(s, a) && t == Apply(s, a);
      Frame(s, a);
    }
    Runs.Always(Next, same, run);
    assert same(Runs.Last(run));
  }

  /** Where the promise holds. */
  lemma PromiseKept(n: nat, d: nat)
    requires d <= 1 || (n == 1 && d == 2)
    ensures Promise(n, d)
  {
    forall cfg: Config, run: seq<State>, v: Url | cfg.maxDepth == d && Crawled(cfg, n, run) && Within(cfg, v)
      ensures v in Runs.Last(run).fetched
    {
      if d <= 1 {
        GoodRun(cfg, n, run);
        ShallowCoverage(Runs.Last(run), v);
      } else {
        OneWorkerDepthTwo(cfg, run, v);
      }
    }
  }

  // ------------------------------------------------------- schedules that lose

  /** Some schedule without cancellation leads from s to t. */
  ghost predicate Leads(s: State, t: State) {
    exists run :: Runs.IsRun(Next, run) && run[0] == s && Runs.Last(run) == t
  }

  lemma LeadsSelf(s: State)
    ensures Leads(s, s)
  {
    assert Runs.IsRun(Next, [s]) && Runs.Last([s]) == s;
  }

  lemma LeadsOn(s: State, t: State, a: Action)
    requires Leads(s, t) && Can(t, a)
    ensures Leads(s, Apply(t, a))
  {
    var run :| Runs.IsRun(Next, run) && run[0] == s && Runs.Last(run) == t;
    Runs.Extend(Next, run, Apply(t, a));
  }

  /** From any good state some schedule runs the crawl to its end. */
  lemma {:induction false} LeadsToEnd(s: State, t: State) returns (e: State)
    requires Leads(s, t) && Good(t) && !t.cancelled
    ensures Leads(s, e) && Good(e) && !e.cancelled && e.main.Returned? && e.cfg == t.cfg
    ensures forall u | u in t.scheduled :: ScheduledAt(e, u, t.scheduled[u])
    decreases Measure(t)
  {
    if t.main.Returned? {
      e := t;
    } else {
      var a := Progress(t);
      MeasureStep(t, a);
      Frame(t, a);
      Grows(t, a);
      NotCancelled(t, a);
      LeadsOn(s, t, a);
      e := LeadsToEnd(s, Apply(t, a));
    }
  }

  lemma NotCancelled(t: State, a: Action)
    requires Can(t, a) && a != Cancel && !t.cancelled
    ensures !Apply(t, a).cancelled
  {
  }

  // The moves a losing schedule is made of, each several atomic steps.

  function Opened(s: State): State {
    s.(main := Waiting, scheduled := map[s.cfg.start := 0], pending := 1, senders := {Job(s.cfg.start, 0)})
  }

  lemma Opens(s: State)
    requires Init(s)
    ensures Leads(s, Opened(s))
  {
    LeadsSelf(s);
    LeadsOn(s, s, MainMark);
    LeadsOn(s, Apply(s, MainMark), MainAdd);
    LeadsOn(s, Apply(Apply(s, MainMark), MainAdd), MainSpawn);
  }

  /** Worker w takes a job and fetches its page. */
  ghost predicate CanBegin(s: State, w: nat, job: Job, links: seq<Url>) {
    && !s.cancelled && !s.closed
    && w < |s.workers| && s.workers[w].Idle? && job in s.senders
    && PageOf(s.cfg, job.url) == Links(links) && job.depth < s.cfg.maxDepth
  }

  function Begun(s: State, w: nat, job: Job, links: seq<Url>): State
    requires w < |s.workers|
  {
    s.(senders := s.senders - {job}, fetched := s.fetched + [job.url], workers := s.workers[w := Linking(job, links)])
  }

  lemma Begins(i: State, s: State, w: nat, job: Job, links: seq<Url>)
    requires Leads(i, s) && CanBegin(s, w, job, links)
    ensures Leads(i, Begun(s, w, job, links))
  {
    var t1 := Apply(s, Take(w, job));
    LeadsOn(i, s, Take(w, job));
    var t2 := Apply(t1, Check(w));
    LeadsOn(i, t1, Check(w));
    LeadsOn(i, t2, Respond(w, false));
    assert Apply(t2, Respond(w, false)).workers == s.workers[w := Linking(job, links)];
  }

  ghost predicate CanEnqueue(s: State, w: nat) {
    && w < |s.workers| && s.workers[w].Linking? && s.workers[w].rest != []
    && var url := s.workers[w].rest[0];
    && url != "" && url !in s.scheduled && s.workers[w].job.depth < s.cfg.maxDepth
  }

  /** Worker w schedules the next link of its page and starts the sender. */
  function Enqueued(s: State, w: nat): State
    requires w < |s.workers| && s.workers[w].Linking? && s.workers[w].rest != []
  {
    var pc := s.workers[w];
    var d := pc.job.depth + 1;
    s.(scheduled := s.scheduled[pc.rest[0] := d], pending := s.pending + 1,
       senders := s.senders + {Job(pc.rest[0], d)}, workers := s.workers[w := Linking(pc.job, pc.rest[1..])])
  }

  lemma Enqueues(i: State, s: State, w: nat)
    requires Leads(i, s) && CanEnqueue(s, w)
    ensures Leads(i, Enqueued(s, w))
  {
    var t1 := Apply(s, NextLink(w));
    LeadsOn(i, s, NextLink(w));
    var t2 := Apply(t1, AddPending(w));
    LeadsOn(i, t1, AddPending(w));
    LeadsOn(i, t2, Spawn(w));
    assert Apply(t2, Spawn(w)).workers == Enqueued(s, w).workers;
  }

  function Ended(s: State, w: nat): State
    requires w < |s.workers| && s.pending > 0
  {
    s.(workers := s.workers[w := Idle], pending := s.pending - 1)
  }

  lemma Ends(i: State, s: State, w: nat)
    requires Leads(i, s) && w < |s.workers| && s.workers[w].Linking? && s.workers[w].rest == [] && s.pending > 0
    ensures Leads(i, Ended(s, w))
  {
    var t1 := Apply(s, NextLink(w));
    LeadsOn(i, s, NextLink(w));
    LeadsOn(i, t1, Done(w));
    assert Apply(t1, Done(w)).workers == s.workers[w := Idle];
  }

  function Fresh(cfg: Config, n: nat): State {
    State(cfg, map[], [], {}, 0, {}, seq(n, _ => Idle), Enqueueing, false, false)
  }

  lemma LeadsGood(s: State, t: State)
    requires Init(s) && Leads(s, t)
    ensures Good(t)
  {
    var run :| Runs.IsRun(Next, run) && run[0] == s && Runs.Last(run) == t;
    Terminates(run);
  }

  // ------------------------------------- two workers lose a page at depth 2

  const TWO_DEEP: Config := Config("s", 2, map["s" := Links(["a", "b"]), "a" := Links(["b"]), "b" := Links(["c"])])

  /** While one worker is between the links of s, the other finds b behind a. */
  lemma TwoWorkersMisplace(n: nat) returns (t: State)
    requires n >= 2
    ensures Leads(Fresh(TWO_DEEP, n), t) && !t.cancelled && ScheduledAt(t, "b", 2) && t.cfg == TWO_DEEP
  {
    var i := Fresh(TWO_DEEP, n);
    Opens(i);
    var s1 := Opened(i);
    Begins(i, s1, 0, Job("s", 0), ["a", "b"]);
    var s2 := Begun(s1, 0, Job("s", 0), ["a", "b"]);
    Enqueues(i, s2, 0);
    var s3 := Enqueued(s2, 0);
    Begins(i, s3, 1, Job("a", 1), ["b"]);
    var s4 := Begun(s3, 1, Job("a", 1), ["b"]);
    Enqueues(i, s4, 1);
    t := Enqueued(s4, 1);
  }

  lemma CDepth(e: State)
    requires Found(e) && e.cfg == TWO_DEEP && ScheduledAt(e, "b", 2) && "c" in e.scheduled
    ensures e.scheduled["c"] == 3
  {
    assert Explained(e, "c");
    var p :| Parent(e, p, "c");
    assert Edge(TWO_DEEP, p, "c");
    assert p == "b";
  }

  lemma CWithin()
    ensures Within(TWO_DEEP, "c")
  {
    var path := ["s", "b", "c"];
    assert Edge(TWO_DEEP, "s", "b") && Edge(TWO_DEEP, "b", "c");
    assert Walk(TWO_DEEP, path);
    assert Reaches(TWO_DEEP, path, "c");
  }

  lemma TwoWorkersLose(n: nat)
    requires n >= 2
    ensures !Promise(n, 2)
  {
    var i := Fresh(TWO_DEEP, n);
    var t := TwoWorkersMisplace(n);
    LeadsGood(i, t);
    var e := LeadsToEnd(i, t);
    if "c" in e.scheduled {
      CDepth(e);
    }
    CWithin();
    EndsPromise(TWO_DEEP, n, e, "c");
  }

  /** One completed crawl that misses a page within the limit breaks the promise. */
  lemma EndsPromise(cfg: Config, n: nat, e: State, v: Url)
    requires n >= 1 && cfg.start != ""
    requires Leads(Fresh(cfg, n), e) && e.main.Returned? && !e.cancelled && Good(e)
    requires Within(cfg, v) && v !in e.scheduled
    ensures !Promise(n, cfg.maxDepth)
  {
    var i := Fresh(cfg, n);
    var run :| Runs.IsRun(Next, run) && run[0] == i && Runs.Last(run) == e;
    assert Crawled(cfg, n, run);
    assert v !in e.fetched;
  }

  // ------------------------------------------ one worker loses a page beyond

  /** The pages behind the misplaced one: "cc", "ccc", and so on. */
  function Tail(k: nat): (u: Url)
    ensures |u| == k
  {
    if k == 0 then "" else Tail(k - 1) + "c"
  }

  function TailPages(k: nat, d: nat): map<Url, Page>
    decreases d - k
  {
    if k >= d then map[] else TailPages(k + 1, d)[Tail(k) := Links([Tail(k + 1)])]
  }

  lemma {:induction false} TailKey(k: nat, d: nat, u: Url)
    requires u in TailPages(k, d)
    ensures k <= |u| < d && u == Tail(|u|) && TailPages(k, d)[u] == Links([Tail(|u| + 1)])
    decreases d - k
  {
    if u != Tail(k) {
      TailKey(k + 1, d, u);
    }
  }

  lemma {:induction false} TailHas(k: nat, d: nat, j: nat)
    requires k <= j < d
    ensures Tail(j) in TailPages(k, d) && TailPages(k, d)[Tail(j)] == Links([Tail(j + 1)])
    decreases d - k
  {
    if j > k {
      assert |Tail(j)| != |Tail(k)|;
      TailHas(k + 1, d, j);
    }
  }

  function Head(): map<Url, Page> {
    map["s" := Links(["a", "x"]), "a" := Links(["b"]), "b" := Links([Tail(2)]), "x" := Links([Tail(2)])]
  }

  function Deep(d: nat): Config {
    Config("s", d, TailPages(2, d) + Head())
  }

  lemma DeepHead(d: nat)
    ensures PageOf(Deep(d), "s") == Links(["a", "x"]) && PageOf(Deep(d), "a") == Links(["b"])
    ensures PageOf(Deep(d), "b") == Links([Tail(2)]) && PageOf(Deep(d), "x") == Links([Tail(2)])
  {
  }

  lemma DeepTail(d: nat, j: nat)
    requires 2 <= j < d
    ensures PageOf(Deep(d), Tail(j)) == Links([Tail(j + 1)])
  {
    TailHas(2, d, j);
    assert Tail(j) !in Head() by {
      assert forall u | u in Head() :: |u| == 1;
    }
  }

  /** Only its predecessor links to a later page of the tail. */
  lemma TailParent(d: nat, k: nat, u: Url)
    requires k >= 2 && Edge(Deep(d), u, Tail(k + 1))
    ensures u == Tail(k)
  {
    if u in Head() {
      HeadLinks(u, Tail(k + 1));
    } else {
      TailKey(2, d, u);
      assert |Tail(|u| + 1)| == |Tail(k + 1)|;
    }
  }

  lemma HeadLinks(u: Url, l: Url)
    requires u in Head() && l in Head()[u].links
    ensures |l| <= 2
  {
  }

  /** The worker takes a before x, and so finds "cc" behind b and not behind x. */
  lemma OneWorkerMisplaces(n: nat, d: nat) returns (t: State)
    requires n >= 1 && d >= 3
    ensures Leads(Fresh(Deep(d), n), t) && !t.cancelled && ScheduledAt(t, Tail(2), 3) && t.cfg == Deep(d)
  {
    var i := Fresh(Deep(d), n);
    DeepHead(d);
    Opens(i);
    var s1 := Opened(i);
    Begins(i, s1, 0, Job("s", 0), ["a", "x"]);
    var s2 := Begun(s1, 0, Job("s", 0), ["a", "x"]);
    var s5 := BothLinks(i, s2, d);
    t := BehindB(i, s5, d);
  }

  /** The worker schedules both links of the start page. */
  lemma BothLinks(i: State, s2: State, d: nat) returns (s5: State)
    requires Leads(i, s2) && s2.cfg == Deep(d) && d >= 3 && !s2.cancelled && !s2.closed
    requires |s2.workers| > 0 && s2.workers[0] == Linking(Job("s", 0), ["a", "x"]) && s2.pending > 0
    requires s2.scheduled == map["s" := 0]
    ensures Leads(i, s5) && s5.cfg == Deep(d) && !s5.cancelled && !s5.closed
    ensures |s5.workers| > 0 && s5.workers[0] == Idle && s5.pending > 0
    ensures Job("a", 1) in s5.senders && "b" !in s5.scheduled && Tail(2) !in s5.scheduled
  {
    Enqueues(i, s2, 0);
    var s3 := Enqueued(s2, 0);
    Enqueues(i, s3, 0);
    var s4 := Enqueued(s3, 0);
    Ends(i, s4, 0);
    s5 := Ended(s4, 0);
  }

  lemma BehindB(i: State, s5: State, d: nat) returns (t: State)
    requires Leads(i, s5) && s5.cfg == Deep(d) && d >= 3 && !s5.cancelled && !s5.closed
    requires |s5.workers| > 0 && s5.workers[0] == Idle && s5.pending > 0
    requires Job("a", 1) in s5.senders && "b" !in s5.scheduled && Tail(2) !in s5.scheduled
    ensures Leads(i, t) && !t.cancelled && ScheduledAt(t, Tail(2), 3) && t.cfg == Deep(d)
  {
    DeepHead(d);
    Begins(i, s5, 0, Job("a", 1), ["b"]);
    var s6 := Begun(s5, 0, Job("a", 1), ["b"]);
    Enqueues(i, s6, 0);
    var s7 := Enqueued(s6, 0);
    Ends(i, s7, 0);
    var s8 := Ended(s7, 0);
    Begins(i, s8, 0, Job("b", 2), [Tail(2)]);
    var s9 := Begun(s8, 0, Job("b", 2), [Tail(2)]);
    Enqueues(i, s9, 0);
    t := Enqueued(s9, 0);
  }

  /** A page of the tail lies one level below its predecessor. */
  ghost predicate Below(scheduled: map<Url, nat>, k: nat) {
    Tail(k + 1) in scheduled ==> Tail(k) in scheduled && scheduled[Tail(k + 1)] == scheduled[Tail(k)] + 1
  }

  lemma TailBelow(e: State, d: nat, k: nat)
    requires Good(e) && e.cfg == Deep(d) && k >= 2
    ensures Below(e.scheduled, k)
  {
    if Tail(k + 1) in e.scheduled {
      assert |Tail(k + 1)| == k + 1;
      assert Explained(e, Tail(k + 1));
      var p :| Parent(e, p, Tail(k + 1));
      TailParent(d, k, p);
    }
  }

  /** Every later page of the tail is one level too deep. */
  lemma {:induction false} TailTooDeep(scheduled: map<Url, nat>, k: nat)
    requires Tail(2) in scheduled && scheduled[Tail(2)] == 3
    requires forall j | 2 <= j < k :: Below(scheduled, j)
    requires k >= 2 && Tail(k) in scheduled
    ensures scheduled[Tail(k)] == k + 1
  {
    if k > 2 {
      assert Below(scheduled, k - 1);
      TailTooDeep(scheduled, k - 1);
    }
  }

  function TailPath(k: nat): seq<Url>
    requires k >= 2
  {
    if k == 2 then ["s", "x", Tail(2)] else TailPath(k - 1) + [Tail(k)]
  }

  lemma {:induction false} TailReached(d: nat, k: nat)
    requires 2 <= k <= d
    ensures Reaches(Deep(d), TailPath(k), Tail(k)) && |TailPath(k)| == k + 1
  {
    DeepHead(d);
    var path := TailPath(k);
    if k == 2 {
      assert Edge(Deep(d), "s", "x") && Edge(Deep(d), "x", Tail(2));
    } else {
      TailReached(d, k - 1);
      DeepTail(d, k - 1);
      var before := TailPath(k - 1);
      assert Edge(Deep(d), before[k - 1], Tail(k));
      forall i | 0 < i < |path|
        ensures Edge(Deep(d), path[i - 1], path[i])
      {
        if i < k {
          assert Edge(Deep(d), before[i - 1], before[i]);
        }
      }
    }
  }

  lemma OneWorkerLoses(n: nat, d: nat)
    requires n >= 1 && d >= 3
    ensures !Promise(n, d)
  {
    var i := Fresh(Deep(d), n);
    var t := OneWorkerMisplaces(n, d);
    LeadsGood(i, t);
    var e := LeadsToEnd(i, t);
    TailReached(d, d);
    if Tail(d) in e.scheduled {
      forall j | 2 <= j < d
        ensures Below(e.scheduled, j)
      {
        TailBelow(e, d, j);
      }
      TailTooDeep(e.scheduled, d);
    }
    EndsPromise(Deep(d), n, e, Tail(d));
  }

  /** The exact condition: a caller of Crawl can rely on every page within
      maxDepth links being visited if and only if maxDepth is at most 1, or it is
      2 and Crawl runs a single worker. */
  lemma PromiseIff(n: nat, d: nat)
    requires n >= 1
    ensures Promise(n, d) <==> d <= 1 || (n == 1 && d == 2)
  {
    if d <= 1 || (n == 1 && d == 2) {
      PromiseKept(n, d);
    } else if d == 2 {
      TwoWorkersLose(n);
    } else {
      OneWorkerLoses(n, d);
    }
  }
}
