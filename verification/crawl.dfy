/** The crawler struct of examples/webcrawler/crawler.go and Crawl itself, under an
    arbitrary scheduler and with cancellation at an arbitrary moment.
 */
module WebCrawler {
  import opened CrawlProtocol
  import opened CrawlResult
  import CrawlRace
  import Runs

  // ----------------------------------------------------------- sort.Strings

  /** The order of Go strings. */
  predicate Le(a: string, b: string) {
    a == "" || (b != "" && (a[0] < b[0] || (a[0] == b[0] && Le(a[1..], b[1..]))))
  }

  lemma {:induction false} LeTotal(a: string, b: string)
    ensures Le(a, b) || Le(b, a)
  {
    if a != "" && b != "" {
      LeTotal(a[1..], b[1..]);
    }
  }

  lemma {:induction false} LeTransitive(a: string, b: string, c: string)
    requires Le(a, b) && Le(b, c)
    ensures Le(a, c)
  {
    if a != "" {
      if a[0] == b[0] == c[0] {
        LeTransitive(a[1..], b[1..], c[1..]);
      }
    }
  }

  ghost predicate Sorted(xs: seq<string>) {
    forall i, j | 0 <= i < j < |xs| :: Le(xs[i], xs[j])
  }

  /** The place of x in a sorted sequence, and x put there. */
  method Insert(xs: seq<string>, x: string) returns (ys: seq<string>)
    requires Sorted(xs)
    ensures Sorted(ys) && multiset(ys) == multiset(xs) + multiset{x}
  {
    var i := 0;
    while i < |xs| && Le(xs[i], x)
      invariant 0 <= i <= |xs|
      invariant forall k | 0 <= k < i :: Le(xs[k], x)
    {
      i := i + 1;
    }
    ys := xs[..i] + [x] + xs[i..];
    assert xs == xs[..i] + xs[i..];
    forall k | i <= k < |xs|
      ensures Le(x, xs[k])
    {
      LeTotal(x, xs[i]);
      if k > i {
        LeTransitive(x, xs[i], xs[k]);
      }
    }
  }

  /** A sorted copy, as crawler.go:181-182 makes one of `fetched`. */
  method SortedCopy(xs: seq<string>) returns (ys: seq<string>)
    ensures Sorted(ys) && multiset(ys) == multiset(xs)
  {
    ys := [];
    for i := 0 to |xs|
      invariant Sorted(ys) && multiset(ys) == multiset(xs[..i])
    {
      ys := Insert(ys, xs[i]);
      assert xs[..i + 1] == xs[..i] + [xs[i]];
    }
    assert xs[..|xs|] == xs;
  }

  // ------------------------------------------------------------ the crawler

  datatype Error = EmptyStart | NegativeDepth | NoWorkers | ContextCancelled
  datatype Outcome = Ok | Err(error: Error)
  datatype Result = Result(visited: seq<Url>, errors: set<Url>)

  class Crawler {
    const cfg: Config
    var scheduled: set<Url>
    var fetched: seq<Url>
    var errors: set<Url>
    var pending: nat
    var senders: set<Job>        // the goroutines that offer a job on c.jobs
    var closed: bool             // c.jobs is closed
    var cancelled: bool
    var workers: seq<Worker>
    var main: Main
    ghost var depths: map<Url, nat>

    ghost function View(): State
      reads this
    {
      State(cfg, depths, fetched, errors, pending, senders, workers, main, closed, cancelled)
    }

    ghost predicate Valid()
      reads this
    {
      Good(View()) && depths.Keys == scheduled
    }

    /** The Go map `scheduled` is the set of the pages that have a depth. */
    ghost predicate Agrees()
      reads this
    {
      depths.Keys == scheduled
    }

    constructor (cfg: Config, n: nat)
      requires cfg.start != "" && n > 0
      ensures this.cfg == cfg && |workers| == n && Init(View()) && Valid() && !cancelled
    {
      this.cfg := cfg;
      scheduled, fetched, errors, pending, senders, depths := {}, [], {}, 0, {}, map[];
      closed, cancelled, main := false, false, Enqueueing;
      workers := seq(n, _ => Idle);
      new;
      GoodInit(View());
    }

    /** The goroutine that called Crawl (crawler.go:99-102 and its enqueue). */
    predicate MainReady()
      reads this
    {
      match main
      case Waiting => pending == 0
      case Joining => forall w | 0 <= w < |workers| :: workers[w].Exited?
      case Returned => false
      case _ => true
    }

    method MainStep() returns (ghost a: Action)
      requires Agrees() && MainReady()
      modifies this
      ensures a != Cancel && Can(old(View()), a) && View() == Apply(old(View()), a)
      ensures Agrees()
    {
      match main {
        case Enqueueing =>
          a := MainMark;
          scheduled := scheduled + {cfg.start};
          depths := depths[cfg.start := 0];
          main := MainMarked;
        case MainMarked =>
          a := MainAdd;
          pending := pending + 1;
          main := MainAdded;
        case MainAdded =>
          a := MainSpawn;
          senders := senders + {Job(cfg.start, 0)};
          main := Waiting;
        case Waiting =>
          a := MainWait;
          main := Closing;
        case Closing =>
          a := MainClose;
          closed := true;
          main := Joining;
        case Joining =>
          a := MainReturn;
          main := Returned;
      }
    }

    /** A sender whose select took ctx.Done (crawler.go:158-159). */
    method SenderGivesUp(job: Job)
      requires Agrees() && Can(View(), Drop(job))
      modifies this
      ensures View() == Apply(old(View()), Drop(job)) && Agrees()
    {
      senders := senders - {job};
      pending := pending - 1;
    }

    method CancelContext()
      requires !cancelled
      modifies this`cancelled
      ensures View() == Apply(old(View()), Cancel)
    {
      cancelled := true;
    }

    predicate WorkerReady(w: nat)
      requires w < |workers|
      reads this
    {
      match workers[w]
      case Idle => closed || senders != {}
      case Exited => false
      case _ => true
    }

    /** The receive of `range c.jobs` (crawler.go:113). */
    method ReceiveStep(w: nat) returns (ghost a: Action)
      requires Agrees() && w < |workers| && workers[w].Idle? && WorkerReady(w)
      modifies this
      ensures a != Cancel && Can(old(View()), a) && View() == Apply(old(View()), a)
      ensures Agrees()
    {
      if closed {
        a := Exit(w);
        workers := workers[w := Exited];
      } else {
        var job :| job in senders;
        a := Take(w, job);
        senders := senders - {job};
        workers := workers[w := Start(job)];
      }
    }

    /** `fetch` up to the loop over the links (crawler.go:119-134). */
    method FetchStep(w: nat, fail: bool) returns (ghost a: Action)
      requires Agrees() && w < |workers| && (workers[w].Start? || workers[w].Fetching? || workers[w].Failed?)
      requires fail ==> cancelled
      modifies this
      ensures a != Cancel && Can(old(View()), a) && View() == Apply(old(View()), a)
      ensures Agrees()
    {
      var job := workers[w].job;
      match workers[w] {
        case Start(_) =>
          a := Check(w);
          if cancelled {
            workers := workers[w := Finishing(job)];
            return;
          }
          fetched := fetched + [job.url];
          workers := workers[w := Fetching(job)];
        case Fetching(_) =>
          a := Respond(w, fail);
          var page := PageOf(cfg, job.url);
          if fail || page.Broken? {
            workers := workers[w := Failed(job)];
            return;
          }
          if job.depth >= cfg.maxDepth {
            workers := workers[w := Finishing(job)];
            return;
          }
          workers := workers[w := Linking(job, page.links)];
        case Failed(_) =>
          a := RecordError(w);
          if !cancelled {
            errors := errors + {job.url};
          }
          workers := workers[w := Finishing(job)];
      }
    }

    /** The loop over the links up to the mark in `enqueue` (crawler.go:136-152). */
    method LinkStep(w: nat)
      requires Agrees() && w < |workers| && workers[w].Linking?
      modifies this
      ensures View() == Apply(old(View()), NextLink(w)) && Agrees()
    {
      var job, rest := workers[w].job, workers[w].rest;
      if rest == [] {
        workers := workers[w := Finishing(job)];
        return;
      }
      var url, depth := rest[0], job.depth + 1;
      if url == "" || depth > cfg.maxDepth || url in scheduled {
        workers := workers[w := Linking(job, rest[1..])];
        return;
      }
      scheduled := scheduled + {url};
      depths := depths[url := depth];
      workers := workers[w := Marked(job, rest[1..], url)];
    }

    /** `enqueue` after its critical section (crawler.go:154-161). */
    method SendStep(w: nat) returns (ghost a: Action)
      requires Agrees() && w < |workers| && HasUrl(workers[w])
      modifies this
      ensures a != Cancel && Can(old(View()), a) && View() == Apply(old(View()), a)
      ensures Agrees()
    {
      var job := workers[w].job;
      match workers[w] {
        case Marked(_, rest, url) =>
          a := AddPending(w);
          pending := pending + 1;
          workers := workers[w := Added(job, rest, url)];
        case Added(_, rest, url) =>
          a := Spawn(w);
          senders := senders + {Job(url, job.depth + 1)};
          workers := workers[w := Linking(job, rest)];
      }
    }

    /** The loop over the links with `enqueue`, and pending.Done (crawler.go:136-161, :115). */
    method EnqueueStep(w: nat) returns (ghost a: Action)
      requires Agrees() && w < |workers|
      requires InLinks(workers[w]) || (workers[w].Finishing? && pending > 0)
      modifies this
      ensures a != Cancel && Can(old(View()), a) && View() == Apply(old(View()), a)
      ensures Agrees()
    {
      if workers[w].Linking? {
        a := NextLink(w);
        LinkStep(w);
      } else if HasUrl(workers[w]) {
        a := SendStep(w);
      } else {
        a := Done(w);
        pending := pending - 1;
        workers := workers[w := Idle];
      }
    }

    method WorkerStep(w: nat, fail: bool) returns (ghost a: Action)
      requires Valid() && w < |workers| && WorkerReady(w) && (fail ==> cancelled)
      modifies this
      ensures a != Cancel && Can(old(View()), a) && View() == Apply(old(View()), a)
      ensures Agrees()
    {
      if workers[w].Idle? {
        a := ReceiveStep(w);
      } else if workers[w].Start? || workers[w].Fetching? || workers[w].Failed? {
        a := FetchStep(w, fail);
      } else {
        BusyPending(View(), w);
        a := EnqueueStep(w);
      }
    }

    /** Until Crawl returns, some goroutine is ready. */
    lemma SomeoneReady()
      requires Valid() && !main.Returned?
      ensures MainReady() || exists w | 0 <= w < |workers| :: WorkerReady(w)
    {
      var a := Progress(View());
      if ByWorker(a) {
        assert WorkerReady(a.w);
      }
    }

    /** One turn of the scheduler: cancellation, a sender that gives up, the
        caller of Crawl, or a worker. */
    method Turn()
      requires Valid() && !main.Returned?
      modifies this
      ensures Next(old(View()), View()) && Agrees()
    {
      SomeoneReady();
      var choice: nat := *;
      ghost var a;
      if choice == 0 && !cancelled {
        a := Cancel;
        CancelContext();
      } else if choice == 1 && cancelled && senders != {} && pending > 0 {
        var job :| job in senders;
        a := Drop(job);
        SenderGivesUp(job);
      } else if MainReady() && (choice == 2 || forall w | 0 <= w < |workers| :: !WorkerReady(w)) {
        a := MainStep();
      } else {
        var w :| 0 <= w < |workers| && WorkerReady(w);
        var fail: bool := *;
        a := WorkerStep(w, fail && cancelled);
      }
      assert Can(old(View()), a);
    }
  }

  /** `Crawl`. Cancelled or not, it reports what the workers of its own schedule have
      fetched and recorded by its end. Unless cancelled it visits, in sorted order and once each, pages that
      are all within maxDepth links; all of those if the depth limit or the
      single worker rule out a race; and the whole reachable set if the limit
      leaves room for it. */
  method Crawl(start: Url, maxDepth: int, workers: int, pages: map<Url, Page>, cancelledBefore: bool)
    returns (result: Result, err: Outcome, cancelled: bool, ghost run: seq<State>)
    ensures start == "" ==> err == Err(EmptyStart)
    ensures start != "" && maxDepth < 0 ==> err == Err(NegativeDepth)
    ensures start != "" && maxDepth >= 0 && workers <= 0 ==> err == Err(NoWorkers)
    ensures start != "" && maxDepth >= 0 && workers > 0 ==>
      && (err == Ok || err == Err(ContextCancelled))
      && (err.Err? <==> cancelled)
      && (cancelledBefore ==> cancelled && result == Result([], {}))
    ensures start != "" && maxDepth >= 0 && workers > 0 && !cancelledBefore ==>
      && Runs.IsRun(Next, run) && Init(run[0])
      && run[0].cfg == Config(start, maxDepth, pages) && |run[0].workers| == workers
      && Runs.Last(run).main.Returned? && cancelled == Runs.Last(run).cancelled
      && multiset(result.visited) == multiset(Runs.Last(run).fetched)
      && result.errors == Runs.Last(run).errors
    ensures Sorted(result.visited)
    ensures forall i, j | 0 <= i < j < |result.visited| :: result.visited[i] != result.visited[j]
    ensures maxDepth >= 0 ==>
      var cfg := Config(start, maxDepth, pages);
      && (forall u | u in result.visited :: CrawlRace.Within(cfg, u))
      && (forall u | u in result.errors :: u in result.visited && PageOf(cfg, u).Broken?)
      && (err == Ok ==>
            && start in result.visited
            && (forall u | u in result.visited && PageOf(cfg, u).Broken? :: u in result.errors)
            && (maxDepth <= 1 || (maxDepth == 2 && workers == 1) ==>
                  forall u | CrawlRace.Within(cfg, u) :: u in result.visited)
            && (|Reachable(cfg)| <= maxDepth + 1 ==> (set u | u in result.visited) == Reachable(cfg)))
  {
    result, cancelled, run := Result([], {}), cancelledBefore, [];
    if start == "" {
      return result, Err(EmptyStart), cancelled, run;
    }
    if maxDepth < 0 {
      return result, Err(NegativeDepth), cancelled, run;
    }
    if workers <= 0 {
      return result, Err(NoWorkers), cancelled, run;
    }
    if cancelledBefore {
      return result, Err(ContextCancelled), cancelled, run;
    }
    var cfg := Config(start, maxDepth, pages);
    var c := new Crawler(cfg, workers);
    run := Serve(c);
    var visited := SortedCopy(c.fetched);
    result := Result(visited, c.errors);
    cancelled := c.cancelled;
    err := if c.cancelled then Err(ContextCancelled) else Ok;
    VisitedFacts(c.View(), visited);
    if !cancelled {
      CompletedFacts(run, cfg, workers, visited);
    }
  }

  /** Runs the crawl to its end and hands back the schedule that was followed. */
  method Serve(c: Crawler) returns (ghost run: seq<State>)
    requires c.Valid() && Init(c.View())
    modifies c
    ensures c.Valid() && c.main.Returned?
    ensures Runs.IsRun(Next, run) && run[0] == old(c.View()) && Runs.Last(run) == c.View()
  {
    run := [c.View()];
    while !c.main.Returned?
      invariant c.Valid()
      invariant Runs.IsRun(Next, run) && run[0] == old(c.View()) && Runs.Last(run) == c.View()
      decreases Measure(c.View())
    {
      ghost var before := c.View();
      c.Turn();
      NextStep(before, c.View());
      Runs.Extend(Next, run, c.View());
      run := run + [c.View()];
    }
  }

  lemma NoTwice(xs: seq<Url>)
    requires forall u :: multiset(xs)[u] <= 1
    ensures forall i, j | 0 <= i < j < |xs| :: xs[i] != xs[j]
  {
    forall i, j | 0 <= i < j < |xs|
      ensures xs[i] != xs[j]
    {
      assert xs == xs[..j] + [xs[j]] + xs[j + 1..];
      assert xs[..j][i] == xs[i] && xs[i] in multiset(xs[..j]);
      assert multiset(xs)[xs[i]] >= multiset(xs[..j])[xs[i]] + multiset{xs[j]}[xs[i]];
    }
  }

  lemma VisitedFacts(s: State, visited: seq<Url>)
    requires Good(s) && multiset(visited) == multiset(s.fetched)
    ensures forall i, j | 0 <= i < j < |visited| :: visited[i] != visited[j]
    ensures forall u | u in visited :: CrawlRace.Within(s.cfg, u)
    ensures forall u | u in s.errors :: u in visited && PageOf(s.cfg, u).Broken?
    ensures forall u :: u in visited <==> u in s.fetched
  {
    assert forall u :: u in visited <==> u in multiset(visited);
    forall u
      ensures multiset(visited)[u] <= 1
      ensures u in visited ==> CrawlRace.Within(s.cfg, u)
      ensures u in s.errors ==> u in visited && PageOf(s.cfg, u).Broken?
    {
      FetchedFact(s, u);
    }
    NoTwice(visited);
  }

  lemma FetchedFact(s: State, u: Url)
    requires Good(s)
    ensures multiset(s.fetched)[u] <= 1
    ensures u in s.fetched ==> CrawlRace.Within(s.cfg, u)
    ensures u in s.errors ==> u in s.fetched && PageOf(s.cfg, u).Broken?
  {
    FetchedOnce(s, u);
  }

  lemma CompletedFacts(run: seq<State>, cfg: Config, n: nat, visited: seq<Url>)
    requires CrawlRace.Crawled(cfg, n, run) && n >= 1
    requires forall u :: u in visited <==> u in Runs.Last(run).fetched
    ensures cfg.start in visited
    ensures forall u | u in visited && PageOf(cfg, u).Broken? :: u in Runs.Last(run).errors
    ensures cfg.maxDepth <= 1 || (cfg.maxDepth == 2 && n == 1) ==>
      forall u | CrawlRace.Within(cfg, u) :: u in visited
    ensures |Reachable(cfg)| <= cfg.maxDepth + 1 ==> (set u | u in visited) == Reachable(cfg)
  {
    var s := Runs.Last(run);
    CrawlRace.GoodRun(cfg, n, run);
    VisitedIff(s, cfg.start);
    forall u | u in visited && PageOf(cfg, u).Broken?
      ensures u in s.errors
    {
      FetchedIsScheduled(s, u);
    }
    CrawlRace.PromiseIff(n, cfg.maxDepth);
    if |Reachable(cfg)| <= cfg.maxDepth + 1 {
      FullCoverage(s);
      assert (set u | u in visited) == (set u | u in s.fetched);
    }
  }
}
