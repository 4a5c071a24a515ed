/** One inspector: a job producer, a pool of workers, a collector, and the channels between them,
    as a state machine over atomic channel operations. */
module InspectionPool {
  import opened Sequences

  datatype Vulnerability = Vulnerability(fileName: string, line: int, similarityID: string)

  /** What loading and running a query comes to. Fixed per run, otherwise arbitrary. */
  datatype Outcome = LoadError | RunError | Found(vulns: seq<Vulnerability>)

  datatype QueryResult = QueryResult(queryID: nat, outcome: Outcome)

  /** Where a worker stands in its loop, with the job in hand. */
  datatype Worker =
    | Idle
    | Announcing(job: nat)
    | Loading(job: nat)
    | Running(job: nat)
    | Reporting(job: nat, result: QueryResult)
    | Exited

  /** `takenBy`, `announced`, `sent` and `collected` are history: the worker that took each job,
      the number of progress messages, and the query indices sent and received as results. */
  datatype Inspection = Inspection(
    queries: seq<Outcome>,
    produced: nat, jobs: seq<nat>, jobsClosed: bool,
    workers: seq<Worker>,
    results: seq<QueryResult>, resultsClosed: bool,
    vulnerabilities: seq<Vulnerability>, failed: set<nat>, returned: bool,
    takenBy: seq<nat>, announced: nat, sent: seq<nat>, collected: seq<nat>)

  function Begin(queries: seq<Outcome>, numWorkers: nat): Inspection {
    Inspection(queries, 0, [], false, seq(numWorkers, _ => Idle), [], false, [], {}, false, [], 0, [], [])
  }

  datatype Step =
    | Produce | CloseJobs
    | Take(w: nat) | Announce(w: nat) | Load(w: nat) | Run(w: nat) | Report(w: nat) | Exit(w: nat)
    | CloseResults | Collect | Return

  predicate Busy(w: Worker) {
    !w.Idle? && !w.Exited?
  }

  /** Both channels of an inspection are buffered with one place per query. A send also needs the
      channel to be open: a send on a closed channel is a panic, not a step. */
  predicate Enabled(s: Inspection, a: Step) {
    match a
    case Produce => s.produced < |s.queries| && !s.jobsClosed && |s.jobs| < |s.queries|
    case CloseJobs => s.produced == |s.queries| && !s.jobsClosed
    case Take(w) => w < |s.workers| && s.workers[w].Idle? && s.jobs != []
    case Announce(w) => w < |s.workers| && s.workers[w].Announcing?
    case Load(w) => w < |s.workers| && s.workers[w].Loading? && s.workers[w].job < |s.queries|
    case Run(w) => w < |s.workers| && s.workers[w].Running? && s.workers[w].job < |s.queries|
    case Report(w) => w < |s.workers| && s.workers[w].Reporting? && !s.resultsClosed && |s.results| < |s.queries|
    case Exit(w) => w < |s.workers| && s.workers[w].Idle? && s.jobs == [] && s.jobsClosed
    case CloseResults => !s.resultsClosed && forall w | 0 <= w < |s.workers| :: s.workers[w].Exited?
    case Collect => !s.returned && s.results != []
    case Return => !s.returned && s.results == [] && s.resultsClosed
  }

  function Apply(s: Inspection, a: Step): Inspection
    requires Enabled(s, a)
  {
    match a
    case Produce => s.(produced := s.produced + 1, jobs := s.jobs + [s.produced])
    case CloseJobs => s.(jobsClosed := true)
    case Take(w) =>
      s.(jobs := s.jobs[1..], workers := s.workers[w := Announcing(s.jobs[0])], takenBy := s.takenBy + [w])
    case Announce(w) => s.(workers := s.workers[w := Loading(s.workers[w].job)], announced := s.announced + 1)
    case Load(w) =>
      var j := s.workers[w].job;
      s.(workers := s.workers[w := if s.queries[j].LoadError? then Idle else Running(j)])
    case Run(w) =>
      var j := s.workers[w].job;
      s.(workers := s.workers[w := Reporting(j, QueryResult(j, s.queries[j]))])
    case Report(w) =>
      var r := s.workers[w].result;
      s.(workers := s.workers[w := Idle], results := s.results + [r], sent := s.sent + [r.queryID])
    case Exit(w) => s.(workers := s.workers[w := Exited])
    case CloseResults => s.(resultsClosed := true)
    case Collect =>
      var r := s.results[0];
      s.(results := s.results[1..], collected := s.collected + [r.queryID],
         failed := if r.outcome.Found? then s.failed else s.failed + {r.queryID},
         vulnerabilities := if r.outcome.Found? then s.vulnerabilities + r.outcome.vulns else s.vulnerabilities)
    case Return => s.(returned := true)
  }

  // ---- What every step keeps ----

  function Announcers(workers: seq<Worker>): nat {
    if workers == [] then 0
    else Announcers(workers[..|workers| - 1]) + if workers[|workers| - 1].Announcing? then 1 else 0
  }

  /** The vulnerabilities of the error-free queries among `ids`, in that order. */
  ghost function FoundBy(queries: seq<Outcome>, ids: seq<nat>): seq<Vulnerability>
    requires Within(ids, |queries|)
  {
    if ids == [] then []
    else
      var j := ids[|ids| - 1];
      FoundBy(queries, ids[..|ids| - 1]) + if queries[j].Found? then queries[j].vulns else []
  }

  /** The jobs channel holds the indices not yet taken, in order; `takenBy` says who took the others. */
  ghost predicate JobsOk(s: Inspection) {
    && |s.takenBy| <= s.produced <= |s.queries|
    && |s.jobs| == s.produced - |s.takenBy|
    && (forall i | 0 <= i < |s.jobs| :: s.jobs[i] == |s.takenBy| + i)
    && (s.jobsClosed ==> s.produced == |s.queries|)
    && (forall j | 0 <= j < |s.takenBy| :: s.takenBy[j] < |s.workers|)
    && (s.workers == [] ==> s.takenBy == [])
    && s.announced + Announcers(s.workers) == |s.takenBy|
  }

  /** A job in hand was taken by that very worker and has no result yet. */
  ghost predicate HandOk(s: Inspection, w: nat)
    requires w < |s.workers|
  {
    Busy(s.workers[w]) ==>
      var j := s.workers[w].job;
      && j < |s.takenBy| && j < |s.queries| && s.takenBy[j] == w && j !in s.sent
      && (s.workers[w].Running? || s.workers[w].Reporting? ==> !s.queries[j].LoadError?)
      && (s.workers[w].Reporting? ==> s.workers[w].result == QueryResult(j, s.queries[j]))
  }

  /** A job that was taken is in hand, or was reported, or could not be loaded. */
  ghost predicate JobOk(s: Inspection, j: nat)
    requires j < |s.takenBy| && s.takenBy[j] < |s.workers| && j < |s.queries|
  {
    var w := s.workers[s.takenBy[j]];
    (Busy(w) && w.job == j) || j in s.sent || s.queries[j].LoadError?
  }

  ghost function FailedBy(queries: seq<Outcome>, ids: seq<nat>): set<nat>
    requires Within(ids, |queries|)
  {
    if ids == [] then {}
    else
      var j := ids[|ids| - 1];
      FailedBy(queries, ids[..|ids| - 1]) + if queries[j].RunError? then {j} else {}
  }

  ghost predicate SentOk(s: Inspection, j: nat) {
    j < |s.takenBy| && j < |s.queries| && !s.queries[j].LoadError?
  }

  ghost predicate ResultOk(queries: seq<Outcome>, r: QueryResult) {
    r.queryID < |queries| && r.outcome == queries[r.queryID] && !r.outcome.LoadError?
  }

  /** The results channel holds what was sent and not yet collected, in order. */
  ghost predicate ChannelOk(queries: seq<Outcome>, sent: seq<nat>, collected: seq<nat>, results: seq<QueryResult>) {
    && |sent| == |collected| + |results|
    && collected == sent[..|collected|]
    && forall k | 0 <= k < |results| :: ResultOk(queries, results[k]) && results[k].queryID == sent[|collected| + k]
  }

  ghost predicate OutputOk(queries: seq<Outcome>, collected: seq<nat>, vulnerabilities: seq<Vulnerability>, failed: set<nat>) {
    && Within(collected, |queries|)
    && vulnerabilities == FoundBy(queries, collected)
    && failed == FailedBy(queries, collected)
  }

  ghost predicate ResultsOk(s: Inspection) {
    && Distinct(s.sent)
    && (forall k | 0 <= k < |s.sent| :: SentOk(s, s.sent[k]))
    && ChannelOk(s.queries, s.sent, s.collected, s.results)
    && OutputOk(s.queries, s.collected, s.vulnerabilities, s.failed)
  }

  ghost predicate ClosedOk(s: Inspection) {
    && (forall w | 0 <= w < |s.workers| && s.workers[w].Exited? :: s.jobsClosed && s.jobs == [])
    && (s.resultsClosed ==> forall w | 0 <= w < |s.workers| :: s.workers[w].Exited?)
    && (s.returned ==> s.resultsClosed && s.results == [])
  }

  ghost predicate Inv(s: Inspection) {
    && JobsOk(s)
    && (forall w | 0 <= w < |s.workers| :: HandOk(s, w))
    && (forall j | 0 <= j < |s.takenBy| :: JobOk(s, j))
    && ResultsOk(s)
    && ClosedOk(s)
  }

  lemma {:induction false} AnnouncersUpdate(workers: seq<Worker>, w: nat, x: Worker)
    requires w < |workers|
    ensures Announcers(workers[w := x])
            == Announcers(workers) - (if workers[w].Announcing? then 1 else 0) + (if x.Announcing? then 1 else 0)
  {
    var last := |workers| - 1;
    if w < last {
      AnnouncersUpdate(workers[..last], w, x);
      assert workers[w := x][..last] == workers[..last][w := x];
    } else {
      assert workers[w := x][..last] == workers[..last];
    }
  }

  lemma {:induction false} NoAnnouncers(workers: seq<Worker>)
    ensures Announcers(workers) == 0 <==> forall w | 0 <= w < |workers| :: !workers[w].Announcing?
  {
    if workers != [] {
      NoAnnouncers(workers[..|workers| - 1]);
    }
  }

  lemma BeginInv(queries: seq<Outcome>, numWorkers: nat)
    ensures Inv(Begin(queries, numWorkers))
  {
    NoAnnouncers(Begin(queries, numWorkers).workers);
  }

  lemma StepKeepsInv(s: Inspection, a: Step)
    requires Inv(s) && Enabled(s, a)
    ensures Inv(Apply(s, a))
  {
    hide Inv, Enabled, Apply;
    match a
    case Produce => ProduceKeeps(s);
    case CloseJobs => CloseKeeps(s, a);
    case Take(w) => TakeKeeps(s, w);
    case Announce(_) => SameJobKeeps(s, a);
    case Load(_) => SameJobKeeps(s, a);
    case Run(_) => SameJobKeeps(s, a);
    case Report(w) => ReportKeeps(s, w);
    case Exit(_) => SameJobKeeps(s, a);
    case CloseResults => CloseKeeps(s, a);
    case Collect => CollectKeepsInv(s);
    case Return => CloseKeeps(s, a);
  }

  lemma ProduceKeeps(s: Inspection)
    requires Inv(s) && Enabled(s, Produce)
    ensures Inv(Apply(s, Produce))
  {
    FrameKeeps(s, Apply(s, Produce));
  }

  lemma CloseKeeps(s: Inspection, a: Step)
    requires Inv(s) && Enabled(s, a) && (a.CloseJobs? || a.CloseResults? || a.Return?)
    ensures Inv(Apply(s, a))
  {
    FrameKeeps(s, Apply(s, a));
  }

  lemma CollectKeepsInv(s: Inspection)
    requires Inv(s) && Enabled(s, Collect)
    ensures Inv(Apply(s, Collect))
  {
    FrameKeeps(s, Apply(s, Collect));
    CollectKeeps(s);
  }

  lemma FrameKeeps(s: Inspection, s': Inspection)
    requires Inv(s)
    requires s'.workers == s.workers && s'.takenBy == s.takenBy && s'.queries == s.queries && s'.sent == s.sent
    ensures forall v | 0 <= v < |s'.workers| :: HandOk(s', v)
    ensures forall j | 0 <= j < |s'.takenBy| && s'.takenBy[j] < |s'.workers| && j < |s'.queries| :: JobOk(s', j)
    ensures forall k | 0 <= k < |s'.sent| :: SentOk(s', s'.sent[k])
  {
    forall v | 0 <= v < |s'.workers| ensures HandOk(s', v) {
      assert HandOk(s, v);
    }
    forall j | 0 <= j < |s'.takenBy| && s'.takenBy[j] < |s'.workers| && j < |s'.queries| ensures JobOk(s', j) {
      assert JobOk(s, j);
    }
  }

  lemma TakeKeeps(s: Inspection, w: nat)
    requires Inv(s) && Enabled(s, Take(w))
    ensures Inv(Apply(s, Take(w)))
  {
    var s' := Apply(s, Take(w));
    AnnouncersUpdate(s.workers, w, s'.workers[w]);
    forall v | 0 <= v < |s'.workers| ensures HandOk(s', v) {
      assert HandOk(s, v);
    }
    forall j | 0 <= j < |s'.takenBy| ensures JobOk(s', j) {
      if j < |s.takenBy| {
        assert JobOk(s, j);
      }
    }
  }

  lemma SameJobKeeps(s: Inspection, a: Step)
    requires Inv(s) && Enabled(s, a) && (a.Announce? || a.Load? || a.Run? || a.Exit?)
    ensures Inv(Apply(s, a))
  {
    var s' := Apply(s, a);
    AnnouncersUpdate(s.workers, a.w, s'.workers[a.w]);
    assert HandOk(s, a.w);
    SameJobJobs(s, a);
    assert JobsOk(s');
    assert ResultsOk(s') by {
      forall k | 0 <= k < |s'.sent| ensures SentOk(s', s'.sent[k]) {
        assert SentOk(s, s.sent[k]);
      }
    }
    assert ClosedOk(s');
  }

  lemma SameJobJobs(s: Inspection, a: Step)
    requires Inv(s) && Enabled(s, a) && (a.Announce? || a.Load? || a.Run? || a.Exit?)
    ensures var s' := Apply(s, a);
            (forall v | 0 <= v < |s'.workers| :: HandOk(s', v)) && (forall j | 0 <= j < |s'.takenBy| :: JobOk(s', j))
  {
    var s' := Apply(s, a);
    assert HandOk(s, a.w);
    forall v | 0 <= v < |s'.workers| ensures HandOk(s', v) {
      assert HandOk(s, v);
    }
    forall j | 0 <= j < |s'.takenBy| ensures JobOk(s', j) {
      assert JobOk(s, j);
    }
  }

  lemma ReportKeeps(s: Inspection, w: nat)
    requires Inv(s) && Enabled(s, Report(w))
    ensures Inv(Apply(s, Report(w)))
  {
    var s' := Apply(s, Report(w));
    AnnouncersUpdate(s.workers, w, s'.workers[w]);
    assert HandOk(s, w);
    var k := s.workers[w].job;
    assert s'.sent == s.sent + [k];
    forall v | 0 <= v < |s'.workers| ensures HandOk(s', v) {
      assert HandOk(s, v);
    }
    forall j | 0 <= j < |s'.takenBy| ensures JobOk(s', j) {
      assert JobOk(s, j);
    }
    forall i | 0 <= i < |s'.sent| ensures SentOk(s', s'.sent[i]) {
      assert i < |s.sent| ==> SentOk(s, s.sent[i]);
    }
    ChannelGrows(s.queries, s.sent, s.collected, s.results, s.workers[w].result);
  }

  lemma OutputGrows(queries: seq<Outcome>, ids: seq<nat>, vulnerabilities: seq<Vulnerability>, failed: set<nat>, r: QueryResult)
    requires OutputOk(queries, ids, vulnerabilities, failed) && ResultOk(queries, r)
    ensures OutputOk(queries, ids + [r.queryID],
                     if r.outcome.Found? then vulnerabilities + r.outcome.vulns else vulnerabilities,
                     if r.outcome.Found? then failed else failed + {r.queryID})
  {
    assert (ids + [r.queryID])[..|ids|] == ids;
  }

  lemma ChannelShrinks(queries: seq<Outcome>, sent: seq<nat>, collected: seq<nat>, results: seq<QueryResult>)
    requires ChannelOk(queries, sent, collected, results) && results != []
    ensures ChannelOk(queries, sent, collected + [results[0].queryID], results[1..])
  {
  }

  lemma ChannelGrows(queries: seq<Outcome>, sent: seq<nat>, collected: seq<nat>, results: seq<QueryResult>, r: QueryResult)
    requires ChannelOk(queries, sent, collected, results) && ResultOk(queries, r)
    ensures ChannelOk(queries, sent + [r.queryID], collected, results + [r])
  {
  }

  lemma CollectKeeps(s: Inspection)
    requires ResultsOk(s) && Enabled(s, Collect)
    ensures ResultsOk(Apply(s, Collect))
  {
    var s' := Apply(s, Collect);
    ChannelShrinks(s.queries, s.sent, s.collected, s.results);
    OutputGrows(s.queries, s.collected, s.vulnerabilities, s.failed, s.results[0]);
    forall k | 0 <= k < |s'.sent| ensures SentOk(s', s'.sent[k]) {
      assert SentOk(s, s.sent[k]);
    }
  }

  // ---- Safety ----

  /** A worker with a result to send finds the results channel open and with a free place. */
  lemma ReportNeverBlocks(s: Inspection, w: nat)
    requires Inv(s) && w < |s.workers| && s.workers[w].Reporting?
    ensures Enabled(s, Report(w))
  {
    assert HandOk(s, w);
    var j := s.workers[w].job;
    forall k | 0 <= k < |s.sent| ensures s.sent[k] < |s.queries| && s.sent[k] != j {
      assert SentOk(s, s.sent[k]);
    }
    Pigeonhole(s.sent + [j], |s.queries|);
    assert |s.sent| == |s.collected| + |s.results|;
  }

  /** No index is in the hands of two workers, in hand after its result was sent, or sent twice. */
  lemma OneWorkerPerQuery(s: Inspection, v: nat, w: nat)
    requires Inv(s) && v < |s.workers| && w < |s.workers| && Busy(s.workers[v]) && Busy(s.workers[w])
    ensures s.workers[v].job == s.workers[w].job ==> v == w
    ensures s.workers[v].job !in s.sent && s.workers[v].job !in s.jobs
    ensures Distinct(s.sent)
  {
    assert HandOk(s, v) && HandOk(s, w);
  }

  /** A job is taken by the worker that receives it, and by no other worker ever after. */
  lemma TakenOnce(s: Inspection, a: Step)
    requires Inv(s) && Enabled(s, a)
    ensures s.takenBy <= Apply(s, a).takenBy
    ensures a.Take? ==> Apply(s, a).takenBy == s.takenBy + [a.w] && s.jobs[0] == |s.takenBy|
    ensures !a.Take? ==> Apply(s, a).takenBy == s.takenBy
  {
  }

  // ---- Progress ----

  /** An inspection that has not returned can move, unless all it can do is announce a query. */
  lemma CanMove(s: Inspection) returns (a: Step)
    requires Inv(s) && !s.returned
    requires forall w | 0 <= w < |s.workers| :: !s.workers[w].Announcing?
    ensures Enabled(s, a) && !a.Announce?
  {
    if w :| 0 <= w < |s.workers| && Busy(s.workers[w]) {
      assert HandOk(s, w);
      match s.workers[w]
      case Loading(_) => a := Load(w);
      case Running(_) => a := Run(w);
      case Reporting(_, _) => ReportNeverBlocks(s, w); a := Report(w);
    } else if !s.jobsClosed {
      a := if s.produced < |s.queries| then Produce else CloseJobs;
    } else if w :| 0 <= w < |s.workers| && s.workers[w].Idle? {
      a := if s.jobs != [] then Take(w) else Exit(w);
    } else if !s.resultsClosed {
      a := CloseResults;
    } else {
      a := if s.results != [] then Collect else Return;
    }
  }

  function Weight(w: Worker): nat {
    match w
    case Exited => 0
    case Idle => 1
    case Reporting(_, _) => 3
    case Running(_) => 4
    case Loading(_) => 5
    case Announcing(_) => 7
  }

  function Weights(workers: seq<Worker>): nat {
    if workers == [] then 0
    else Weights(workers[..|workers| - 1]) + Weight(workers[|workers| - 1])
  }

  lemma {:induction false} WeightsUpdate(workers: seq<Worker>, w: nat, x: Worker)
    requires w < |workers|
    ensures Weights(workers[w := x]) == Weights(workers) - Weight(workers[w]) + Weight(x)
  {
    var last := |workers| - 1;
    if w < last {
      WeightsUpdate(workers[..last], w, x);
      assert workers[w := x][..last] == workers[..last][w := x];
    } else {
      assert workers[w := x][..last] == workers[..last];
    }
  }

  function Flag(b: bool): nat {
    if b then 0 else 1
  }

  /** The steps an inspection can still take; an announcement also pays for its delivery. */
  function Remaining(s: Inspection): nat
    requires |s.takenBy| <= s.produced <= |s.queries|
  {
    (|s.queries| - s.produced) + 7 * (|s.queries| - |s.takenBy|) + Weights(s.workers) + |s.results|
    + Flag(s.jobsClosed) + Flag(s.resultsClosed) + Flag(s.returned)
  }

  lemma StepsRunOut(s: Inspection, a: Step)
    requires Enabled(s, a) && |s.takenBy| <= s.produced <= |s.queries| && |s.jobs| == s.produced - |s.takenBy|
    ensures |Apply(s, a).takenBy| <= Apply(s, a).produced <= |s.queries|
    ensures Remaining(Apply(s, a)) + (if a.Announce? then 2 else 1) <= Remaining(s)
  {
    var s' := Apply(s, a);
    if a.Take? || a.Announce? || a.Load? || a.Run? || a.Report? || a.Exit? {
      WeightsUpdate(s.workers, a.w, s'.workers[a.w]);
    }
  }

  // ---- The result ----

  ghost function AllFound(queries: seq<Outcome>): multiset<Vulnerability> {
    if queries == [] then multiset{}
    else
      var q := queries[|queries| - 1];
      AllFound(queries[..|queries| - 1]) + if q.Found? then multiset(q.vulns) else multiset{}
  }

  lemma {:induction false} FoundByConcat(queries: seq<Outcome>, a: seq<nat>, b: seq<nat>)
    requires Within(a, |queries|) && Within(b, |queries|)
    ensures Within(a + b, |queries|)
    ensures FoundBy(queries, a + b) == FoundBy(queries, a) + FoundBy(queries, b)
    decreases |b|
  {
    if b == [] {
      assert a + b == a;
    } else {
      FoundByConcat(queries, a, b[..|b| - 1]);
      assert (a + b)[..|a + b| - 1] == a + b[..|b| - 1];
    }
  }

  lemma {:induction false} FoundByFewer(queries: seq<Outcome>, n: nat, ids: seq<nat>)
    requires n <= |queries| && Within(ids, n)
    ensures FoundBy(queries[..n], ids) == FoundBy(queries, ids)
    decreases |ids|
  {
    if ids != [] {
      FoundByFewer(queries, n, ids[..|ids| - 1]);
    }
  }

  lemma CollectAny(queries: seq<Outcome>, ids: seq<nat>, x: nat)
    requires Within(ids, |queries|) && x < |queries|
    ensures Within(ids + [x], |queries|)
    ensures FoundBy(queries, ids + [x]) == FoundBy(queries, ids) + if queries[x].Found? then queries[x].vulns else []
  {
    assert (ids + [x])[..|ids|] == ids;
  }

  lemma TakeOut(queries: seq<Outcome>, ids: seq<nat>, i: nat)
    requires Within(ids, |queries|) && i < |ids|
    ensures Within(ids[..i] + ids[i + 1..], |queries|)
    ensures
      var q := queries[ids[i]];
      multiset(FoundBy(queries, ids))
      == multiset(FoundBy(queries, ids[..i] + ids[i + 1..])) + if q.Found? then multiset(q.vulns) else multiset{}
  {
    var a, x, b := ids[..i], ids[i], ids[i + 1..];
    assert ids == a + [x] + b;
    FoundByConcat(queries, a, b);
    CollectAny(queries, a, x);
    FoundByConcat(queries, a + [x], b);
  }

  ghost predicate Covers(queries: seq<Outcome>, ids: seq<nat>) {
    forall j | 0 <= j < |queries| && queries[j].Found? :: j in ids
  }

  lemma CoversWithoutLast(queries: seq<Outcome>, ids: seq<nat>, i: nat)
    requires queries != [] && Within(ids, |queries|) && Distinct(ids) && Covers(queries, ids)
    requires i < |ids| && ids[i] == |queries| - 1
    ensures
      var rest := ids[..i] + ids[i + 1..];
      Within(rest, |queries| - 1) && Distinct(rest) && Covers(queries[..|queries| - 1], rest)
  {
    var n, rest := |queries| - 1, ids[..i] + ids[i + 1..];
    assert forall k | 0 <= k < |rest| :: rest[k] == ids[if k < i then k else k + 1];
    forall j | 0 <= j < n && queries[..n][j].Found? ensures j in rest {
      assert queries[j].Found?;
      var k :| 0 <= k < |ids| && ids[k] == j;
      assert rest[if k < i then k else k - 1] == j;
    }
  }

  /** Collecting each finding query once, in any order, yields all findings. */
  lemma {:induction false} AnyOrder(queries: seq<Outcome>, ids: seq<nat>)
    requires Within(ids, |queries|) && Distinct(ids) && Covers(queries, ids)
    ensures multiset(FoundBy(queries, ids)) == AllFound(queries)
    decreases |queries|
  {
    assert |ids| > 0 ==> ids[0] < |queries|;
    if queries != [] {
      var n := |queries| - 1;
      if i :| 0 <= i < |ids| && ids[i] == n {
        TakeOut(queries, ids, i);
        CoversWithoutLast(queries, ids, i);
        AnyOrder(queries[..n], ids[..i] + ids[i + 1..]);
        FoundByFewer(queries, n, ids[..i] + ids[i + 1..]);
      } else {
        forall j | 0 <= j < n && queries[..n][j].Found? ensures j in ids {
          assert queries[j].Found?;
        }
        AnyOrder(queries[..n], ids);
        FoundByFewer(queries, n, ids);
      }
    }
  }

  lemma {:induction false} FailedMembers(queries: seq<Outcome>, ids: seq<nat>)
    requires Within(ids, |queries|)
    ensures forall j :: j in FailedBy(queries, ids) <==> j in ids && j < |queries| && queries[j].RunError?
  {
    if ids != [] {
      FailedMembers(queries, ids[..|ids| - 1]);
      assert ids == ids[..|ids| - 1] + [ids[|ids| - 1]];
    }
  }

  /** Inspect returns the findings of exactly the error-free queries, each once, and records
      exactly the queries that failed to run. */
  lemma ReturnsAllFindings(s: Inspection)
    requires Inv(s) && s.returned && (s.workers != [] || s.queries == [])
    ensures multiset(s.vulnerabilities) == AllFound(s.queries)
    ensures s.failed == set j | 0 <= j < |s.queries| && s.queries[j].RunError?
    ensures |s.takenBy| == |s.queries|
  {
    if s.workers != [] {
      assert s.workers[0].Exited?;
    }
    assert s.sent == s.collected;
    forall j | 0 <= j < |s.queries| && !s.queries[j].LoadError? ensures j in s.collected {
      assert JobOk(s, j);
    }
    AnyOrder(s.queries, s.collected);
    FailedMembers(s.queries, s.collected);
  }
}
