/** examples/webcrawler/crawler.go: the protocol of Crawl as a state machine.

    Goroutines are the caller of Crawl (`main`), the workers, and one sender for
    each scheduled page, which offers a job on the unbuffered channel `jobs`.
    Fetching is a fixed finite map from pages to their links; a page outside the
    map answers with an error. Once the context is cancelled a fetch may also
    fail with the cancellation error.
 */
module CrawlProtocol {
  import opened Sums

  type Url = string

  datatype Page = Links(links: seq<Url>) | Broken

  datatype Config = Config(start: Url, maxDepth: nat, pages: map<Url, Page>)

  datatype Job = Job(url: Url, depth: nat)

  datatype Worker =
    | Idle                                        // receiving from jobs
    | Start(job: Job)                             // about to test the context
    | Fetching(job: Job)                          // recorded, fetch under way
    | Failed(job: Job)                            // fetch returned an error
    | Linking(job: Job, rest: seq<Url>)           // links still to be enqueued
    | Marked(job: Job, rest: seq<Url>, url: Url)  // url marked, pending.Add(1) next
    | Added(job: Job, rest: seq<Url>, url: Url)   // counted, its sender is next
    | Finishing(job: Job)                         // pending.Done() next
    | Exited

  datatype Main =
    | Enqueueing | MainMarked | MainAdded         // c.enqueue(start, 0)
    | Waiting                                     // c.pending.Wait()
    | Closing                                     // close(c.jobs) next
    | Joining                                     // workerWG.Wait()
    | Returned

  datatype State = State(
    cfg: Config,
    scheduled: map<Url, nat>,    // with the depth each page was scheduled at
    fetched: seq<Url>,
    errors: set<Url>,
    pending: nat,
    senders: set<Job>,
    workers: seq<Worker>,
    main: Main,
    closed: bool,
    cancelled: bool)

  datatype Action =
    | MainMark | MainAdd | MainSpawn | MainWait | MainClose | MainReturn
    | Take(w: nat, job: Job)
    | Drop(job: Job)
    | Exit(w: nat)
    | Check(w: nat)
    | Respond(w: nat, fail: bool)
    | RecordError(w: nat)
    | NextLink(w: nat)
    | AddPending(w: nat)
    | Spawn(w: nat)
    | Done(w: nat)
    | Cancel

  function PageOf(cfg: Config, url: Url): Page {
    if url in cfg.pages then cfg.pages[url] else Broken
  }

  predicate Can(s: State, a: Action) {
    match a
    case MainMark => s.main.Enqueueing?
    case MainAdd => s.main.MainMarked?
    case MainSpawn => s.main.MainAdded?
    case MainWait => s.main.Waiting? && s.pending == 0
    case MainClose => s.main.Closing?
    case MainReturn => s.main.Joining? && forall w | 0 <= w < |s.workers| :: s.workers[w].Exited?
    case Take(w, job) => w < |s.workers| && s.workers[w].Idle? && job in s.senders && !s.closed
    case Drop(job) => job in s.senders && s.cancelled && s.pending > 0
    case Exit(w) => w < |s.workers| && s.workers[w].Idle? && s.closed
    case Check(w) => w < |s.workers| && s.workers[w].Start?
    case Respond(w, fail) => w < |s.workers| && s.workers[w].Fetching? && (fail ==> s.cancelled)
    case RecordError(w) => w < |s.workers| && s.workers[w].Failed?
    case NextLink(w) => w < |s.workers| && s.workers[w].Linking?
    case AddPending(w) => w < |s.workers| && s.workers[w].Marked?
    case Spawn(w) => w < |s.workers| && s.workers[w].Added?
    case Done(w) => w < |s.workers| && s.workers[w].Finishing? && s.pending > 0
    case Cancel => !s.cancelled
  }

  function Goto(s: State, w: nat, pc: Worker): State
    requires w < |s.workers|
  {
    s.(workers := s.workers[w := pc])
  }

  /** The next iteration of the loop over a page's links (crawler.go:136-138, :141-152). */
  function Link(s: State, w: nat): State
    requires w < |s.workers| && s.workers[w].Linking?
  {
    var pc := s.workers[w];
    if pc.rest == [] then Goto(s, w, Finishing(pc.job))
    else
      var url := pc.rest[0];
      if url == "" || pc.job.depth + 1 > s.cfg.maxDepth || url in s.scheduled then
        Goto(s, w, Linking(pc.job, pc.rest[1..]))
      else
        Goto(s, w, Marked(pc.job, pc.rest[1..], url)).(scheduled := s.scheduled[url := pc.job.depth + 1])
  }

  function Apply(s: State, a: Action): State
    requires Can(s, a)
  {
    match a
    case MainMark => s.(main := MainMarked, scheduled := s.scheduled[s.cfg.start := 0])
    case MainAdd => s.(main := MainAdded, pending := s.pending + 1)
    case MainSpawn => s.(main := Waiting, senders := s.senders + {Job(s.cfg.start, 0)})
    case MainWait => s.(main := Closing)
    case MainClose => s.(main := Joining, closed := true)
    case MainReturn => s.(main := Returned)
    case Take(w, job) => Goto(s, w, Start(job)).(senders := s.senders - {job})
    case Drop(job) => s.(senders := s.senders - {job}, pending := s.pending - 1)
    case Exit(w) => Goto(s, w, Exited)
    case Check(w) =>
      var job := s.workers[w].job;
      if s.cancelled then Goto(s, w, Finishing(job))
      else Goto(s, w, Fetching(job)).(fetched := s.fetched + [job.url])
    case Respond(w, fail) =>
      var job := s.workers[w].job;
      var page := PageOf(s.cfg, job.url);
      if fail || page.Broken? then Goto(s, w, Failed(job))
      else if job.depth >= s.cfg.maxDepth then Goto(s, w, Finishing(job))
      else Goto(s, w, Linking(job, page.links))
    case RecordError(w) =>
      var job := s.workers[w].job;
      Goto(s, w, Finishing(job)).(errors := if s.cancelled then s.errors else s.errors + {job.url})
    case NextLink(w) => Link(s, w)
    case AddPending(w) =>
      var pc := s.workers[w];
      Goto(s, w, Added(pc.job, pc.rest, pc.url)).(pending := s.pending + 1)
    case Spawn(w) =>
      var pc := s.workers[w];
      Goto(s, w, Linking(pc.job, pc.rest)).(senders := s.senders + {Job(pc.url, pc.job.depth + 1)})
    case Done(w) => Goto(s, w, Idle).(pending := s.pending - 1)
    case Cancel => s.(cancelled := true)
  }

  ghost predicate Next(s: State, t: State) {
    exists a :: Can(s, a) && t == Apply(s, a)
  }

  /** A step of one of the goroutines: everything but the cancellation. */
  ghost predicate Moves(s: State, t: State) {
    exists a :: a != Cancel && Can(s, a) && t == Apply(s, a)
  }

  /** Crawl after its argument checks (crawler.go:81-97). */
  ghost predicate Init(s: State) {
    && s.cfg.start != ""
    && s.scheduled == map[] && s.fetched == [] && s.errors == {} && s.pending == 0 && s.senders == {}
    && |s.workers| > 0 && (forall w | 0 <= w < |s.workers| :: s.workers[w].Idle?)
    && s.main.Enqueueing? && !s.closed
  }

  // --------------------------------------------------- termination detection

  function Busy(w: Worker): nat {
    if w.Idle? || w.Exited? then 0 else if w.Added? then 2 else 1
  }

  function BusyMain(m: Main): nat {
    if m.MainAdded? then 1 else 0
  }

  /** pending counts the senders, the jobs being processed, and the adds whose
      sender has not been started yet. */
  ghost predicate Counted(s: State) {
    s.pending == |s.senders| + Sum(s.workers, Busy) + BusyMain(s.main)
  }

  predicate Early(m: Main) {
    m.Enqueueing? || m.MainMarked? || m.MainAdded?
  }

  ghost predicate Phases(s: State) {
    && |s.workers| > 0
    && s.cfg.start != ""
    && (s.closed <==> s.main.Joining? || s.main.Returned?)
    && (s.main.Closing? || s.closed ==> s.pending == 0)
    && (Early(s.main) ==> s.senders == {} && forall w | 0 <= w < |s.workers| :: s.workers[w].Idle?)
    && (s.main.Returned? ==> forall w | 0 <= w < |s.workers| :: s.workers[w].Exited?)
    && forall w | 0 <= w < |s.workers| :: s.workers[w].Exited? ==> s.closed
  }

  ghost predicate Control(s: State) {
    Counted(s) && Phases(s)
  }

  /** Steps inside a job that neither add nor finish one. */
  predicate Inner(a: Action) {
    a.Exit? || a.Check? || a.Respond? || a.RecordError? || a.NextLink?
  }

  predicate ByWorker(a: Action) {
    Inner(a) || a.Take? || a.AddPending? || a.Spawn? || a.Done?
  }

  /** The next link is passed over or marked; all else stays. */
  lemma LinkFrame(s: State, w: nat)
    requires Can(s, NextLink(w))
    ensures var t, pc := Link(s, w), s.workers[w];
      && t.cfg == s.cfg && t.main == s.main && t.closed == s.closed && t.cancelled == s.cancelled
      && t.senders == s.senders && t.pending == s.pending && t.fetched == s.fetched && t.errors == s.errors
      && |t.workers| == |s.workers| && t.workers == s.workers[w := t.workers[w]]
      && (t.workers[w].Marked? ==>
            && pc.rest != [] && t.workers[w] == Marked(pc.job, pc.rest[1..], pc.rest[0])
            && pc.rest[0] !in s.scheduled && pc.rest[0] in t.scheduled)
      && (!t.workers[w].Marked? ==>
            && t.scheduled == s.scheduled
            && t.workers[w] == if pc.rest == [] then Finishing(pc.job) else Linking(pc.job, pc.rest[1..]))
  {
  }

  /** What a worker's step leaves alone. */
  lemma WorkerFrame(s: State, a: Action)
    requires Can(s, a) && ByWorker(a)
    ensures var t := Apply(s, a);
      && t.cfg == s.cfg && t.main == s.main && t.closed == s.closed && t.cancelled == s.cancelled
      && |t.workers| == |s.workers| && t.workers == s.workers[a.w := t.workers[a.w]]
      && (!a.NextLink? ==> t.scheduled == s.scheduled)
  {
    if a.NextLink? {
      LinkFrame(s, a.w);
    }
  }

  /** Only a worker that leaves is gone, and it leaves the counter alone. */
  lemma ExitFrame(s: State, a: Action)
    requires Can(s, a) && ByWorker(a)
    ensures var t := Apply(s, a);
      && a.w < |t.workers| && (t.workers[a.w].Exited? <==> a.Exit?)
      && (a.Exit? ==> t.pending == s.pending && t.senders == s.senders)
  {
    if a.NextLink? {
      LinkFrame(s, a.w);
    }
  }

  lemma InnerFrame(s: State, a: Action)
    requires Can(s, a) && Inner(a)
    ensures var t := Apply(s, a);
      && t.pending == s.pending && t.senders == s.senders
      && a.w < |t.workers| && Busy(t.workers[a.w]) == Busy(s.workers[a.w])
  {
    if a.NextLink? {
      LinkFrame(s, a.w);
    }
  }

  lemma InnerCounted(s: State, a: Action)
    requires Control(s) && Can(s, a) && Inner(a)
    ensures Counted(Apply(s, a))
  {
    WorkerFrame(s, a);
    InnerFrame(s, a);
    SumUpdate(s.workers, a.w, Apply(s, a).workers[a.w], Busy);
  }

  lemma TakeCounted(s: State, w: nat, job: Job)
    requires Control(s) && Can(s, Take(w, job))
    ensures Counted(Apply(s, Take(w, job)))
  {
    SumUpdate(s.workers, w, Start(job), Busy);
    assert |s.senders - {job}| == |s.senders| - 1;
  }

  lemma AddCounted(s: State, w: nat)
    requires Control(s) && Can(s, AddPending(w))
    ensures Counted(Apply(s, AddPending(w)))
  {
    SumUpdate(s.workers, w, Apply(s, AddPending(w)).workers[w], Busy);
  }

  lemma SpawnCounted(s: State, w: nat)
    requires Control(s) && Can(s, Spawn(w))
    requires Job(s.workers[w].url, s.workers[w].job.depth + 1) !in s.senders
    ensures Counted(Apply(s, Spawn(w)))
  {
    var pc := s.workers[w];
    SumUpdate(s.workers, w, Linking(pc.job, pc.rest), Busy);
    OneMore(s.senders, Job(pc.url, pc.job.depth + 1));
  }

  lemma OneMore(senders: set<Job>, job: Job)
    requires job !in senders
    ensures |senders + {job}| == |senders| + 1
  {
  }

  lemma DoneCounted(s: State, w: nat)
    requires Control(s) && Can(s, Done(w))
    ensures Counted(Apply(s, Done(w)))
  {
    SumUpdate(s.workers, w, Idle, Busy);
  }

  lemma CountedStep(s: State, a: Action)
    requires Control(s) && Can(s, a)
    requires a.Spawn? ==> Job(s.workers[a.w].url, s.workers[a.w].job.depth + 1) !in s.senders
    ensures Counted(Apply(s, a))
  {
    if Inner(a) {
      InnerCounted(s, a);
    } else if a.Take? {
      TakeCounted(s, a.w, a.job);
    } else if a.AddPending? {
      AddCounted(s, a.w);
    } else if a.Spawn? {
      SpawnCounted(s, a.w);
    } else if a.Done? {
      DoneCounted(s, a.w);
    } else if a.Drop? {
      assert |s.senders - {a.job}| == |s.senders| - 1;
    } else if a.MainSpawn? {
      assert s.senders == {};
    }
  }

  /** A worker inside a job keeps the counter positive. */
  lemma BusyPending(s: State, w: nat)
    requires Counted(s) && w < |s.workers|
    ensures Busy(s.workers[w]) <= s.pending
  {
    SumAtLeast(s.workers, w, Busy);
  }

  /** A worker does nothing before the first job is on offer, and nothing but
      leave once the counter is at zero. */
  lemma WorkerActs(s: State, a: Action)
    requires Control(s) && Can(s, a) && ByWorker(a)
    ensures !Early(s.main) && (a.Exit? || s.pending > 0)
  {
    BusyPending(s, a.w);
    if a.Take? {
      assert a.job in s.senders;
    }
  }

  lemma PhasesStep(s: State, a: Action)
    requires Control(s) && Can(s, a)
    ensures Phases(Apply(s, a))
  {
    if ByWorker(a) {
      WorkerFrame(s, a);
      ExitFrame(s, a);
      WorkerActs(s, a);
    }
  }

  /** Zero means zero: with the counter at zero there is no sender, no job and no
      worker that could start one. */
  lemma ZeroIsQuiet(s: State)
    requires Control(s) && s.pending == 0
    ensures s.senders == {}
    ensures forall w | 0 <= w < |s.workers| :: s.workers[w].Idle? || s.workers[w].Exited?
  {
    forall w | 0 <= w < |s.workers|
      ensures s.workers[w].Idle? || s.workers[w].Exited?
    {
      SumAtLeast(s.workers, w, Busy);
    }
  }

  /** The WaitGroup rule: once the caller waits, Add is called only while the
      counter is positive, so Wait cannot have returned before it. And
      close(c.jobs) meets no sender, nor is there one afterwards. A Done never
      finds the counter at zero. */
  lemma CloseIsSafe(s: State, a: Action)
    requires Control(s) && Can(s, a)
    ensures a.AddPending? ==> s.pending > 0 && !s.main.Closing? && !s.closed
    ensures a.MainClose? ==> s.senders == {} && !s.closed
    ensures s.closed ==> s.senders == {} && Apply(s, a).senders == {}
    ensures a.Spawn? ==> !s.closed && s.pending > 1
    ensures s.senders != {} ==> s.pending > 0
    ensures forall w | 0 <= w < |s.workers| && s.workers[w].Finishing? :: s.pending > 0
  {
    if a.AddPending? || a.Spawn? {
      BusyPending(s, a.w);
    }
    if s.pending == 0 {
      ZeroIsQuiet(s);
    }
  }

  // ------------------------------------------------------------ no deadlock

  /** Whatever the schedule and whether or not the context is cancelled: until
      Crawl has returned, some goroutine can take a step. */
  lemma Progress(s: State) returns (a: Action)
    requires Control(s) && !s.main.Returned?
    ensures a != Cancel && !a.Drop? && Can(s, a)
  {
    if s.main.Waiting? && s.pending > 0 {
      if w :| 0 <= w < |s.workers| && Busy(s.workers[w]) > 0 {
        BusyPending(s, w);
        a := match s.workers[w]
          case Start(_) => Check(w)
          case Fetching(_) => Respond(w, false)
          case Failed(_) => RecordError(w)
          case Linking(_, _) => NextLink(w)
          case Marked(_, _, _) => AddPending(w)
          case Added(_, _, _) => Spawn(w)
          case Finishing(_) => Done(w);
      } else {
        SumConstant(s.workers, 0, Busy);
        assert |s.senders| > 0;
        var job :| job in s.senders;
        assert s.workers[0].Idle?;
        a := Take(0, job);
      }
    } else if s.main.Joining? {
      ZeroIsQuiet(s);
      if w :| 0 <= w < |s.workers| && !s.workers[w].Exited? {
        a := Exit(w);
      } else {
        a := MainReturn;
      }
    } else {
      a := match s.main
        case Enqueueing => MainMark
        case MainMarked => MainAdd
        case MainAdded => MainSpawn
        case Waiting => MainWait
        case _ => MainClose;
    }
  }

  // --------------------------------------------------- where each page is

  predicate HasJob(w: Worker) {
    !w.Idle? && !w.Exited?
  }

  predicate InLinks(w: Worker) {
    w.Linking? || w.Marked? || w.Added?
  }

  predicate HasUrl(w: Worker) {
    w.Marked? || w.Added?
  }

  /** A link from one page to another that the crawler would follow. */
  predicate Edge(cfg: Config, p: Url, u: Url) {
    u != "" && PageOf(cfg, p).Links? && u in PageOf(cfg, p).links
  }

  predicate ScheduledAt(s: State, url: Url, depth: nat) {
    url in s.scheduled && s.scheduled[url] == depth
  }

  /** What a worker holds agrees with the shared maps. */
  ghost predicate WorkerOk(s: State, w: Worker) {
    && (HasJob(w) ==> ScheduledAt(s, w.job.url, w.job.depth))
    && (w.Fetching? || w.Failed? || InLinks(w) ==> w.job.url in s.fetched)
    && (InLinks(w) ==>
          && w.job.depth < s.cfg.maxDepth
          && PageOf(s.cfg, w.job.url).Links?
          && forall l | l in w.rest :: l in PageOf(s.cfg, w.job.url).links)
    && (HasUrl(w) ==> ScheduledAt(s, w.url, w.job.depth + 1) && Edge(s.cfg, w.job.url, w.url))
    && (w.Failed? && !s.cancelled ==> PageOf(s.cfg, w.job.url).Broken?)
  }

  /** The shared maps and the senders agree with each other and with the caller. */
  ghost predicate Shared(s: State) {
    && (forall j | j in s.senders :: ScheduledAt(s, j.url, j.depth))
    && (forall u | u in s.scheduled :: u != "" && s.scheduled[u] <= s.cfg.maxDepth)
    && (if s.main.Enqueueing? then s.scheduled == map[] else ScheduledAt(s, s.cfg.start, 0))
    && (s.main.MainMarked? || s.main.MainAdded? ==> s.scheduled.Keys == {s.cfg.start})
    && (Early(s.main) ==> s.fetched == [])
    && (forall u | u in s.fetched :: u in s.scheduled)
  }

  ghost predicate Consistent(s: State) {
    && (forall w | 0 <= w < |s.workers| :: WorkerOk(s, s.workers[w]))
    && Shared(s)
  }

  /** The maps only grow. */
  predicate Extends(s: State, t: State) {
    && t.cfg == s.cfg
    && (forall u | u in s.scheduled :: ScheduledAt(t, u, s.scheduled[u]))
    && s.fetched <= t.fetched
  }

  lemma LinkGrows(s: State, w: nat)
    requires Can(s, NextLink(w))
    ensures Extends(s, Link(s, w))
  {
    LinkFrame(s, w);
  }

  lemma Grows(s: State, a: Action)
    requires Consistent(s) && Can(s, a)
    ensures Extends(s, Apply(s, a))
  {
    if a.NextLink? {
      LinkGrows(s, a.w);
    } else if ByWorker(a) {
      WorkerFrame(s, a);
      assert s.fetched <= Apply(s, a).fetched;
    }
  }

  lemma KeepsWorkers(s: State, t: State)
    requires Consistent(s) && Extends(s, t) && (s.cancelled ==> t.cancelled)
    ensures forall w | 0 <= w < |s.workers| :: WorkerOk(t, s.workers[w])
  {
  }

  lemma RestLinks(rest: seq<Url>, links: seq<Url>)
    requires rest != [] && forall l | l in rest :: l in links
    ensures rest[0] in links && forall l | l in rest[1..] :: l in links
  {
    assert rest == [rest[0]] + rest[1..];
  }

  lemma LinkWorker(s: State, w: nat)
    requires Can(s, NextLink(w)) && WorkerOk(s, s.workers[w])
    ensures WorkerOk(Link(s, w), Link(s, w).workers[w])
  {
    var pc := s.workers[w];
    if pc.rest != [] {
      RestLinks(pc.rest, PageOf(s.cfg, pc.job.url).links);
    }
  }

  lemma LinkShared(s: State, w: nat)
    requires Consistent(s) && Can(s, NextLink(w)) && !Early(s.main)
    ensures Shared(Apply(s, NextLink(w)))
  {
    assert WorkerOk(s, s.workers[w]);
  }

  /** Which worker a step moves, and what it leaves alone. */
  lemma Frame(s: State, a: Action)
    requires Can(s, a)
    ensures var t := Apply(s, a);
      && t.cfg == s.cfg
      && (s.cancelled ==> t.cancelled)
      && |t.workers| == |s.workers|
      && (if ByWorker(a) then t.workers == s.workers[a.w := t.workers[a.w]] && t.main == s.main
          else t.workers == s.workers)
  {
    if ByWorker(a) {
      WorkerFrame(s, a);
    }
  }

  lemma TakeOk(s: State, w: nat, job: Job)
    requires Consistent(s) && Can(s, Take(w, job))
    ensures WorkerOk(Apply(s, Take(w, job)), Start(job))
  {
    assert ScheduledAt(s, job.url, job.depth);
  }

  lemma RestOk(s: State, a: Action)
    requires Can(s, a) && (a.Exit? || a.RecordError? || a.AddPending? || a.Spawn? || a.Done?)
    requires WorkerOk(s, s.workers[a.w])
    ensures WorkerOk(Apply(s, a), Apply(s, a).workers[a.w])
  {
  }

  lemma ActorOk(s: State, a: Action)
    requires Consistent(s) && Can(s, a) && ByWorker(a) && !a.NextLink?
    ensures WorkerOk(Apply(s, a), Apply(s, a).workers[a.w])
  {
    assert WorkerOk(s, s.workers[a.w]);
    if a.Check? {
      CheckOk(s, a.w);
    } else if a.Respond? {
      RespondOk(s, a.w, a.fail);
    } else if a.Take? {
      TakeOk(s, a.w, a.job);
    } else {
      RestOk(s, a);
    }
  }

  lemma CheckOk(s: State, w: nat)
    requires Consistent(s) && Can(s, Check(w))
    ensures WorkerOk(Apply(s, Check(w)), Apply(s, Check(w)).workers[w])
  {
    assert WorkerOk(s, s.workers[w]);
  }

  lemma RespondOk(s: State, w: nat, fail: bool)
    requires Consistent(s) && Can(s, Respond(w, fail))
    ensures WorkerOk(Apply(s, Respond(w, fail)), Apply(s, Respond(w, fail)).workers[w])
  {
    assert WorkerOk(s, s.workers[w]);
  }

  lemma SharedByWorker(s: State, a: Action)
    requires Consistent(s) && Can(s, a) && ByWorker(a) && !a.NextLink? && !Early(s.main)
    ensures Shared(Apply(s, a))
  {
    assert WorkerOk(s, s.workers[a.w]);
    assert Apply(s, a).scheduled == s.scheduled && Apply(s, a).main == s.main;
  }

  lemma SharedByOther(s: State, a: Action)
    requires Control(s) && Consistent(s) && Can(s, a) && !ByWorker(a)
    ensures Shared(Apply(s, a))
  {
    assert Apply(s, a).fetched == s.fetched;
  }

  lemma ConsistentStep(s: State, a: Action)
    requires Control(s) && Consistent(s) && Can(s, a)
    ensures Consistent(Apply(s, a))
  {
    if a.NextLink? {
      WorkerActs(s, a);
      assert WorkerOk(s, s.workers[a.w]);
      LinkWorker(s, a.w);
      LinkShared(s, a.w);
    } else if ByWorker(a) {
      WorkerActs(s, a);
      ActorOk(s, a);
      SharedByWorker(s, a);
    } else {
      SharedByOther(s, a);
    }
    Grows(s, a);
    Frame(s, a);
    KeepsWorkers(s, Apply(s, a));
  }

  /** Weight 1 for a worker that has url in hand but has not recorded its fetch. */
  function Handles(url: Url): Worker -> nat {
    (w: Worker) => if (w.Start? && w.job.url == url) || (HasUrl(w) && w.url == url) then 1 else 0
  }

  function Offered(s: State, url: Url): nat {
    if url in s.scheduled && Job(url, s.scheduled[url]) in s.senders then 1 else 0
  }

  function HeldByMain(s: State, url: Url): nat {
    if (s.main.MainMarked? || s.main.MainAdded?) && url == s.cfg.start then 1 else 0
  }

  /** In how many places a page is on its way to the workers, or how often it
      has been fetched. */
  function Spots(s: State, url: Url): nat {
    multiset(s.fetched)[url] + Sum(s.workers, Handles(url)) + Offered(s, url) + HeldByMain(s, url)
  }

  /** A scheduled page is in one place only, and is lost only by cancellation. */
  ghost predicate Located(s: State) {
    forall url: Url :: SpotsOk(s, url)
  }

  /** A job about to be offered is not on offer already. */
  lemma NotOffered(s: State, w: nat)
    requires Consistent(s) && Located(s) && w < |s.workers| && HasUrl(s.workers[w])
    ensures Job(s.workers[w].url, s.workers[w].job.depth + 1) !in s.senders
  {
    var url := s.workers[w].url;
    assert SpotsOk(s, url);
    SumAtLeast(s.workers, w, Handles(url));
  }

  ghost predicate SpotsOk(s: State, url: Url) {
    && Spots(s, url) <= (if url in s.scheduled then 1 else 0)
    && (!s.cancelled && url in s.scheduled ==> Spots(s, url) == 1)
  }

  lemma TakeSpots(s: State, w: nat, job: Job, url: Url)
    requires Consistent(s) && Can(s, Take(w, job))
    ensures Spots(Apply(s, Take(w, job)), url) == Spots(s, url)
  {
    var t := Apply(s, Take(w, job));
    SumUpdate(s.workers, w, t.workers[w], Handles(url));
    assert ScheduledAt(s, job.url, job.depth);
  }

  /** What a worker's step does to a page's places, the shared maps staying. */
  lemma SpotsMove(s: State, t: State, w: nat, url: Url)
    requires w < |s.workers| == |t.workers| && t.workers == s.workers[w := t.workers[w]]
    requires t.senders == s.senders && t.scheduled == s.scheduled && t.main == s.main && t.cfg == s.cfg
    ensures Spots(t, url) + multiset(s.fetched)[url] + Handles(url)(s.workers[w])
         == Spots(s, url) + multiset(t.fetched)[url] + Handles(url)(t.workers[w])
  {
    SumUpdate(s.workers, w, t.workers[w], Handles(url));
  }

  lemma CheckFrame(s: State, w: nat)
    requires Can(s, Check(w))
    ensures var t, job := Apply(s, Check(w)), s.workers[w].job;
      && t.senders == s.senders && t.scheduled == s.scheduled && t.main == s.main && t.cfg == s.cfg
      && |t.workers| == |s.workers| && t.workers == s.workers[w := t.workers[w]]
      && (if s.cancelled then t.fetched == s.fetched && t.workers[w] == Finishing(job)
          else t.fetched == s.fetched + [job.url] && t.workers[w] == Fetching(job))
  {
  }

  lemma CheckSpots(s: State, w: nat, url: Url)
    requires Consistent(s) && Can(s, Check(w))
    ensures var t := Apply(s, Check(w));
      Spots(t, url) <= Spots(s, url) && (!s.cancelled ==> Spots(t, url) == Spots(s, url))
  {
    CheckFrame(s, w);
    SpotsMove(s, Apply(s, Check(w)), w, url);
  }

  lemma PassSpots(s: State, w: nat, url: Url)
    requires Can(s, NextLink(w)) && Link(s, w).scheduled == s.scheduled
    ensures Spots(Link(s, w), url) == Spots(s, url)
  {
    SpotsMove(s, Link(s, w), w, url);
  }

  /** A page that has just been marked is not on offer yet. */
  lemma MarkOffers(s: State, w: nat, url: Url)
    requires Shared(s) && Can(s, NextLink(w)) && Link(s, w).workers[w].Marked?
    ensures Offered(Link(s, w), url) == Offered(s, url)
  {
    LinkFrame(s, w);
    var marked := s.workers[w].rest[0];
    if url == marked {
      assert forall j | j in s.senders :: j.url in s.scheduled;
    } else {
      assert url in s.scheduled <==> url in Link(s, w).scheduled;
    }
  }

  /** Marking a page puts it in one place, and leaves the others where they are. */
  lemma MarkSpots(s: State, w: nat, url: Url)
    requires Consistent(s) && Can(s, NextLink(w)) && Link(s, w).workers[w].Marked? && !Early(s.main)
    ensures Spots(Link(s, w), url) == Spots(s, url) + if url == Link(s, w).workers[w].url then 1 else 0
  {
    LinkFrame(s, w);
    MarkOffers(s, w, url);
    SumUpdate(s.workers, w, Link(s, w).workers[w], Handles(url));
  }

  lemma LinkSpots(s: State, w: nat, url: Url)
    requires Consistent(s) && !Early(s.main) && SpotsOk(s, url) && Can(s, NextLink(w))
    ensures SpotsOk(Link(s, w), url)
  {
    if Link(s, w).workers[w].Marked? {
      MarkSpots(s, w, url);
    } else {
      PassSpots(s, w, url);
    }
  }

  lemma SpawnSpots(s: State, w: nat, url: Url)
    requires Consistent(s) && Located(s) && Can(s, Spawn(w))
    ensures Spots(Apply(s, Spawn(w)), url) == Spots(s, url)
  {
    SumUpdate(s.workers, w, Apply(s, Spawn(w)).workers[w], Handles(url));
    NotOffered(s, w);
    assert WorkerOk(s, s.workers[w]);
  }

  lemma RestFrame(s: State, a: Action, url: Url)
    requires Can(s, a) && (a.Exit? || a.Respond? || a.RecordError? || a.AddPending? || a.Done?)
    ensures var t := Apply(s, a);
      && t.fetched == s.fetched && t.senders == s.senders && a.w < |t.workers|
      && Handles(url)(t.workers[a.w]) == Handles(url)(s.workers[a.w])
  {
  }

  lemma RestSpots(s: State, a: Action, url: Url)
    requires Can(s, a) && (a.Exit? || a.Respond? || a.RecordError? || a.AddPending? || a.Done?)
    ensures Spots(Apply(s, a), url) == Spots(s, url)
  {
    WorkerFrame(s, a);
    RestFrame(s, a, url);
    SpotsMove(s, Apply(s, a), a.w, url);
  }

  lemma WorkerSpots(s: State, a: Action, url: Url)
    requires Consistent(s) && Located(s) && Can(s, a) && ByWorker(a) && !a.NextLink?
    ensures Spots(Apply(s, a), url) <= Spots(s, url)
    ensures !s.cancelled ==> Spots(Apply(s, a), url) == Spots(s, url)
  {
    if a.Take? {
      TakeSpots(s, a.w, a.job, url);
    } else if a.Check? {
      CheckSpots(s, a.w, url);
    } else if a.Spawn? {
      SpawnSpots(s, a.w, url);
    } else {
      RestSpots(s, a, url);
    }
  }

  lemma MainSpots(s: State, a: Action, url: Url)
    requires Control(s) && Consistent(s) && SpotsOk(s, url) && Can(s, a) && !ByWorker(a)
    ensures SpotsOk(Apply(s, a), url)
  {
    var t := Apply(s, a);
    assert t.workers == s.workers && t.fetched == s.fetched;
    if a.MainMark? {
      assert s.scheduled == map[] && s.senders == {};
    } else if a.MainSpawn? {
      assert s.senders == {} && ScheduledAt(s, s.cfg.start, 0) && s.scheduled.Keys == {s.cfg.start};
    }
  }

  /** One step leaves each page in at most one place. */
  lemma SpotsStep(s: State, a: Action, url: Url)
    requires Control(s) && Consistent(s) && Located(s) && Can(s, a)
    ensures SpotsOk(Apply(s, a), url)
  {
    assert SpotsOk(s, url);
    if !ByWorker(a) {
      MainSpots(s, a, url);
    } else if a.NextLink? {
      WorkerActs(s, a);
      LinkSpots(s, a.w, url);
    } else {
      WorkerFrame(s, a);
      WorkerSpots(s, a, url);
    }
  }

  lemma LocatedStep(s: State, a: Action)
    requires Control(s) && Consistent(s) && Located(s) && Can(s, a)
    ensures Located(Apply(s, a))
  {
    forall url: Url
      ensures SpotsOk(Apply(s, a), url)
    {
      SpotsStep(s, a, url);
    }
  }

  // ------------------------------------------------------ who found each page

  /** p was fetched, links to u, and was scheduled one level above it. */
  ghost predicate Parent(s: State, p: Url, u: Url) {
    && u in s.scheduled && s.scheduled[u] > 0
    && ScheduledAt(s, p, s.scheduled[u] - 1)
    && p in s.fetched
    && Edge(s.cfg, p, u)
  }

  /** A scheduled page other than the start has a parent. */
  ghost predicate Explained(s: State, u: Url) {
    u in s.scheduled ==> u == s.cfg.start || exists p :: Parent(s, p, u)
  }

  ghost predicate Found(s: State) {
    forall u: Url :: Explained(s, u)
  }

  lemma FoundStep(s: State, a: Action)
    requires Consistent(s) && Found(s) && Can(s, a)
    ensures Found(Apply(s, a))
  {
    var t := Apply(s, a);
    Grows(s, a);
    forall u: Url
      ensures Explained(t, u)
    {
      if u in t.scheduled && u != t.cfg.start {
        if u in s.scheduled {
          assert Explained(s, u);
          var p :| Parent(s, p, u);
          assert Parent(t, p, u);
        } else {
          NewLink(s, a, u);
        }
      }
    }
  }

  lemma NewLink(s: State, a: Action, u: Url)
    requires Consistent(s) && Can(s, a) && u in Apply(s, a).scheduled && u !in s.scheduled && u != s.cfg.start
    ensures a.NextLink? && Parent(Apply(s, a), s.workers[a.w].job.url, u)
  {
    assert WorkerOk(s, s.workers[a.w]);
  }

  // -------------------------------------------------------- links are followed

  /** The worker will still look at the link from u to v. */
  predicate WillFollow(w: Worker, u: Url, v: Url) {
    && HasJob(w) && w.job.url == u
    && (w.Fetching? || (InLinks(w) && v in w.rest))
  }

  ghost predicate Followed(s: State, u: Url, v: Url) {
    v in s.scheduled || exists w | 0 <= w < |s.workers| :: WillFollow(s.workers[w], u, v)
  }

  /** Unless cancelled, every link of a fetched page above the depth limit has
      been followed or is still in the hands of the worker that fetched it. */
  ghost predicate Closure(s: State) {
    !s.cancelled ==>
      forall u, v | u in s.fetched && Edge(s.cfg, u, v) && u in s.scheduled && s.scheduled[u] < s.cfg.maxDepth ::
        Followed(s, u, v)
  }

  lemma LinkFollows(s: State, w: nat, u: Url, v: Url)
    requires Can(s, NextLink(w)) && ScheduledAt(s, s.workers[w].job.url, s.workers[w].job.depth)
    requires WillFollow(s.workers[w], u, v) && v != "" && u in s.scheduled && s.scheduled[u] < s.cfg.maxDepth
    ensures v in Link(s, w).scheduled || WillFollow(Link(s, w).workers[w], u, v)
  {
    var rest := s.workers[w].rest;
    if rest != [] {
      assert rest == [rest[0]] + rest[1..];
    }
  }

  lemma WorkerFollows(s: State, a: Action, u: Url, v: Url)
    requires Consistent(s) && Can(s, a) && ByWorker(a) && !Apply(s, a).cancelled
    requires WillFollow(s.workers[a.w], u, v) && Edge(s.cfg, u, v) && s.scheduled[u] < s.cfg.maxDepth
    ensures v in Apply(s, a).scheduled || WillFollow(Apply(s, a).workers[a.w], u, v)
  {
    assert WorkerOk(s, s.workers[a.w]);
    if a.NextLink? {
      LinkFollows(s, a.w, u, v);
    }
  }

  lemma FollowedStep(s: State, a: Action, u: Url, v: Url)
    requires Consistent(s) && Can(s, a) && !Apply(s, a).cancelled
    requires u in s.fetched && Edge(s.cfg, u, v) && s.scheduled[u] < s.cfg.maxDepth && Followed(s, u, v)
    ensures Followed(Apply(s, a), u, v)
  {
    var t := Apply(s, a);
    Grows(s, a);
    Frame(s, a);
    if v !in t.scheduled {
      var w :| 0 <= w < |s.workers| && WillFollow(s.workers[w], u, v);
      if ByWorker(a) && w == a.w {
        WorkerFollows(s, a, u, v);
      }
      assert WillFollow(t.workers[w], u, v);
    }
  }

  lemma ClosureStep(s: State, a: Action)
    requires Consistent(s) && Closure(s) && Can(s, a)
    ensures Closure(Apply(s, a))
  {
    var t := Apply(s, a);
    Grows(s, a);
    Frame(s, a);
    if !t.cancelled {
      forall u, v | u in t.fetched && Edge(s.cfg, u, v) && u in t.scheduled && t.scheduled[u] < s.cfg.maxDepth
        ensures Followed(t, u, v)
      {
        if u in s.fetched {
          FollowedStep(s, a, u, v);
        } else {
          NewFetch(s, a, u);
          assert WillFollow(t.workers[a.w], u, v);
        }
      }
    }
  }

  // ----------------------------------------------------------- fetch errors

  predicate WillReport(w: Worker, u: Url) {
    (w.Fetching? || w.Failed?) && w.job.url == u
  }

  ghost predicate Reported(s: State) {
    && (forall u | u in s.errors :: u in s.fetched && PageOf(s.cfg, u).Broken?)
    && (!s.cancelled ==> forall u | u in s.fetched && PageOf(s.cfg, u).Broken? ::
          u in s.errors || exists w | 0 <= w < |s.workers| :: WillReport(s.workers[w], u))
  }

  lemma ErrorsStep(s: State, a: Action)
    requires Consistent(s) && Reported(s) && Can(s, a)
    ensures forall u | u in Apply(s, a).errors :: u in s.fetched && PageOf(s.cfg, u).Broken?
  {
    if a.RecordError? {
      assert WorkerOk(s, s.workers[a.w]);
    }
  }

  /** Only a Check records a fetch, and its worker goes on to fetch the page. */
  lemma NewFetch(s: State, a: Action, u: Url)
    requires Can(s, a) && u in Apply(s, a).fetched && u !in s.fetched
    ensures a.Check? && s.workers[a.w].job.url == u && Apply(s, a).workers[a.w] == Fetching(s.workers[a.w].job)
  {
  }

  lemma WorkerReports(s: State, a: Action, u: Url)
    requires Consistent(s) && Can(s, a) && ByWorker(a) && !Apply(s, a).cancelled
    requires WillReport(s.workers[a.w], u) && PageOf(s.cfg, u).Broken?
    ensures u in Apply(s, a).errors || WillReport(Apply(s, a).workers[a.w], u)
  {
  }

  lemma ReportedStep(s: State, a: Action)
    requires Consistent(s) && Reported(s) && Can(s, a)
    ensures Reported(Apply(s, a))
  {
    var t := Apply(s, a);
    Grows(s, a);
    Frame(s, a);
    ErrorsStep(s, a);
    assert s.errors <= t.errors;
    if !t.cancelled {
      forall u | u in t.fetched && PageOf(s.cfg, u).Broken?
        ensures u in t.errors || exists w | 0 <= w < |t.workers| :: WillReport(t.workers[w], u)
      {
        if u !in s.fetched {
          NewFetch(s, a, u);
          assert WillReport(t.workers[a.w], u);
        } else if u !in t.errors {
          var w :| 0 <= w < |s.workers| && WillReport(s.workers[w], u);
          if ByWorker(a) && w == a.w {
            WorkerReports(s, a, u);
          }
          assert WillReport(t.workers[w], u);
        }
      }
    }
  }

  // ------------------------------------------------------- the whole invariant

  /** What is true of the pages, beside the counting of goroutines. */
  ghost predicate Pages(s: State) {
    Consistent(s) && Located(s) && Found(s) && Closure(s) && Reported(s)
  }

  ghost predicate Inv(s: State) {
    Control(s) && Pages(s)
  }

  lemma InvInit(s: State)
    requires Init(s)
    ensures Inv(s)
  {
    SumConstant(s.workers, 0, Busy);
    forall url: Url
      ensures Spots(s, url) == 0
    {
      SumConstant(s.workers, 0, Handles(url));
    }
  }

  lemma ControlStep(s: State, a: Action)
    requires Control(s) && Consistent(s) && Located(s) && Can(s, a)
    ensures Control(Apply(s, a))
  {
    if a.Spawn? {
      NotOffered(s, a.w);
    }
    CountedStep(s, a);
    PhasesStep(s, a);
  }

  lemma InvStep(s: State, a: Action)
    requires Can(s, a)
    requires Control(s) && Pages(s)
    ensures Control(Apply(s, a)) && Pages(Apply(s, a))
  {
    ControlStep(s, a);
    ConsistentStep(s, a);
    LocatedStep(s, a);
    FoundStep(s, a);
    ClosureStep(s, a);
    ReportedStep(s, a);
  }
}
