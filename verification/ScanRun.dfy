/** A whole scan: several inspections that share one progress channel of capacity one, the
    progress bar that drains it, and the goroutine that closes it when everybody is done. */
module ScanRun {
  import opened InspectionPool

  // ---- Which queries a service runs ----

  datatype Query = Query(platform: string, outcome: Outcome)

  /** `fold` is the case-insensitive comparison of strings. */
  datatype Service = Service(queries: seq<Query>, platforms: seq<string>, numWorkers: nat)

  predicate Contains(platforms: seq<string>, e: string, fold: (string, string) -> bool) {
    var e' := if e == "k8s" then "kubernetes" else e;
    e == "common" || exists p | p in platforms :: fold(p, e')
  }

  /** The outcomes of the queries for the given platforms, in order. */
  function Selected(queries: seq<Query>, platforms: seq<string>, fold: (string, string) -> bool): seq<Outcome> {
    if queries == [] then []
    else
      var q := queries[|queries| - 1];
      Selected(queries[..|queries| - 1], platforms, fold)
      + if Contains(platforms, q.platform, fold) then [q.outcome] else []
  }

  ghost predicate Increasing(at: seq<nat>, bound: nat) {
    (forall i | 0 <= i < |at| :: at[i] < bound) && forall i, j | 0 <= i < j < |at| :: at[i] < at[j]
  }

  /** Some given platform is `e`, whatever the case of its letters. */
  ghost predicate Given(platforms: seq<string>, e: string, fold: (string, string) -> bool) {
    exists p | p in platforms :: fold(p, e)
  }

  /** Of the queries, those at `at` are chosen: every common one, those for k8s exactly if Kubernetes is given, and any
      other exactly if its own platform is. */
  ghost predicate Chosen(queries: seq<Query>, platforms: seq<string>, fold: (string, string) -> bool, at: seq<nat>) {
    && Increasing(at, |queries|)
    && forall i: nat | i < |queries| ::
         && (queries[i].platform == "common" ==> i in at)
         && (queries[i].platform == "k8s" ==> (i in at <==> Given(platforms, "kubernetes", fold)))
         && (queries[i].platform != "common" && queries[i].platform != "k8s" ==>
               (i in at <==> Given(platforms, queries[i].platform, fold)))
  }

  ghost function OutcomesAt(queries: seq<Query>, at: seq<nat>): seq<Outcome>
    requires forall i | 0 <= i < |at| :: at[i] < |queries|
  {
    seq(|at|, i requires 0 <= i < |at| => queries[at[i]].outcome)
  }

  lemma {:induction false} SelectedAre(queries: seq<Query>, platforms: seq<string>, fold: (string, string) -> bool) returns (at: seq<nat>)
    ensures Chosen(queries, platforms, fold, at) && Selected(queries, platforms, fold) == OutcomesAt(queries, at)
    decreases |queries|
  {
    if queries == [] {
      at := [];
    } else {
      hide Chosen, Contains;
      var last := |queries| - 1;
      var front := SelectedAre(queries[..last], platforms, fold);
      at := if Contains(platforms, queries[last].platform, fold) then front + [last] else front;
      ChosenMore(queries, platforms, fold, front);
      assert Selected(queries, platforms, fold) == OutcomesAt(queries, at);
    }
  }

  lemma ChosenMore(queries: seq<Query>, platforms: seq<string>, fold: (string, string) -> bool, front: seq<nat>)
    requires queries != [] && Chosen(queries[..|queries| - 1], platforms, fold, front)
    ensures
      var last := |queries| - 1;
      var takes := Contains(platforms, queries[last].platform, fold);
      var at := if takes then front + [last] else front;
      && (forall i | 0 <= i < |front| :: front[i] < last) && Chosen(queries, platforms, fold, at)
      && OutcomesAt(queries, at) == OutcomesAt(queries[..last], front) + if takes then [queries[last].outcome] else []
  {
    var last := |queries| - 1;
    var at := if Contains(platforms, queries[last].platform, fold) then front + [last] else front;
    assert last !in front;
    forall i: nat | i < last ensures i in at <==> i in front {}
    forall i: nat | i < last ensures queries[i] == queries[..last][i] {}
    hide Given;
  }

  method GetQueriesByPlat(queries: seq<Query>, platforms: seq<string>, fold: (string, string) -> bool)
    returns (selected: seq<Outcome>)
    ensures selected == Selected(queries, platforms, fold)
    ensures exists at :: Chosen(queries, platforms, fold, at) && selected == OutcomesAt(queries, at)
  {
    ghost var at := SelectedAre(queries, platforms, fold);
    selected := [];
    for i := 0 to |queries|
      invariant selected == Selected(queries[..i], platforms, fold)
    {
      assert queries[..i + 1][..i] == queries[..i];
      if Contains(platforms, queries[i].platform, fold) {
        selected := selected + [queries[i].outcome];
      }
    }
    assert queries[..|queries|] == queries;
  }

  method LenQueriesByPlat(queries: seq<Query>, platforms: seq<string>, fold: (string, string) -> bool) returns (count: nat)
    ensures count == |Selected(queries, platforms, fold)|
    ensures exists at :: Chosen(queries, platforms, fold, at) && count == |at|
  {
    ghost var at := SelectedAre(queries, platforms, fold);
    count := 0;
    for i := 0 to |queries|
      invariant count == |Selected(queries[..i], platforms, fold)|
    {
      assert queries[..i + 1][..i] == queries[..i];
      if Contains(platforms, queries[i].platform, fold) {
        count := count + 1;
      }
    }
    assert queries[..|queries|] == queries;
  }

  function BeginAll(services: seq<Service>, fold: (string, string) -> bool): seq<Inspection> {
    seq(|services|, k requires 0 <= k < |services| =>
      Begin(Selected(services[k].queries, services[k].platforms, fold), services[k].numWorkers))
  }

  // ---- Sums over the services ----

  function Sum(s: seq<Inspection>, f: Inspection -> nat): nat {
    if s == [] then 0 else Sum(s[..|s| - 1], f) + f(s[|s| - 1])
  }

  lemma {:induction false} SumUpdate(s: seq<Inspection>, f: Inspection -> nat, k: nat, x: Inspection)
    requires k < |s|
    ensures Sum(s[k := x], f) == Sum(s, f) - f(s[k]) + f(x)
  {
    var last := |s| - 1;
    if k < last {
      SumUpdate(s[..last], f, k, x);
      assert s[k := x][..last] == s[..last][k := x];
    } else {
      assert s[k := x][..last] == s[..last];
    }
  }

  lemma {:induction false} SumCompare(s: seq<Inspection>, f: Inspection -> nat, g: Inspection -> nat)
    requires forall k | 0 <= k < |s| :: f(s[k]) <= g(s[k])
    ensures Sum(s, f) <= Sum(s, g)
    ensures Sum(s, f) == Sum(s, g) <==> forall k | 0 <= k < |s| :: f(s[k]) == g(s[k])
  {
    if s != [] {
      SumCompare(s[..|s| - 1], f, g);
    }
  }

  const QUERY_COUNT: Inspection -> nat := (i: Inspection) => |i.queries|
  const ANNOUNCED_COUNT: Inspection -> nat := (i: Inspection) => i.announced
  const REMAINING_STEPS: Inspection -> nat := (i: Inspection) => if |i.takenBy| <= i.produced <= |i.queries| then Remaining(i) else 0

  /** The total given to the progress bar. */
  method GetQueriesLength(services: seq<Service>, fold: (string, string) -> bool) returns (count: nat)
    ensures count == Sum(BeginAll(services, fold), QUERY_COUNT)
  {
    count := 0;
    var all := BeginAll(services, fold);
    for k := 0 to |services|
      invariant count == Sum(all[..k], QUERY_COUNT)
    {
      assert all[..k + 1][..k] == all[..k];
      var n := LenQueriesByPlat(services[k].queries, services[k].platforms, fold);
      count := count + n;
    }
    assert all[..|services|] == all;
  }

  // ---- The protocol ----

  datatype Scan = Scan(
    services: seq<Inspection>,
    buffered: nat, currentClosed: bool,
    total: nat, received: nat, barRunning: bool,
    wgDone: bool)

  function StartScan(services: seq<Inspection>): Scan {
    var total := Sum(services, QUERY_COUNT);
    Scan(services, 0, false, total, 0, total != 0, false)
  }

  datatype Action = Of(k: nat, a: Step) | BarReceive | CloseCurrent | CloseDone

  predicate AllReturned(s: Scan) {
    forall k | 0 <= k < |s.services| :: s.services[k].returned
  }

  predicate CanDo(s: Scan, x: Action) {
    match x
    case Of(k, a) =>
      k < |s.services| && Enabled(s.services[k], a) && (a.Announce? ==> s.buffered < 1 && !s.currentClosed)
    case BarReceive => s.barRunning && (s.buffered > 0 || s.currentClosed)
    case CloseCurrent => !s.currentClosed && AllReturned(s) && !s.barRunning
    case CloseDone => s.currentClosed && !s.wgDone
  }

  function Do(s: Scan, x: Action): Scan
    requires CanDo(s, x)
  {
    match x
    case Of(k, a) =>
      s.(services := s.services[k := Apply(s.services[k], a)], buffered := s.buffered + if a.Announce? then 1 else 0)
    case BarReceive =>
      if s.buffered > 0 then
        s.(buffered := s.buffered - 1, received := s.received + 1, barRunning := s.received + 1 < s.total)
      else s.(barRunning := false)
    case CloseCurrent => s.(currentClosed := true)
    case CloseDone => s.(wgDone := true)
  }

  ghost predicate ScanInv(s: Scan) {
    && (forall k | 0 <= k < |s.services| :: Inv(s.services[k]))
    && s.total == Sum(s.services, QUERY_COUNT)
    && s.received + s.buffered == Sum(s.services, ANNOUNCED_COUNT)
    && s.buffered <= 1
    && s.barRunning == (s.received < s.total)
    && (s.currentClosed ==> AllReturned(s) && !s.barRunning)
    && (s.wgDone ==> s.currentClosed)
  }

  lemma StartInv(services: seq<Service>, fold: (string, string) -> bool)
    ensures ScanInv(StartScan(BeginAll(services, fold)))
  {
    var all := BeginAll(services, fold);
    forall k | 0 <= k < |all| ensures Inv(all[k]) {
      BeginInv(Selected(services[k].queries, services[k].platforms, fold), services[k].numWorkers);
    }
    NothingAnnounced(all);
  }

  lemma {:induction false} NothingAnnounced(s: seq<Inspection>)
    requires forall k | 0 <= k < |s| :: s[k].announced == 0
    ensures Sum(s, ANNOUNCED_COUNT) == 0
  {
    if s != [] {
      NothingAnnounced(s[..|s| - 1]);
    }
  }

  /** What a step of one inspection does to what the scan sees of it. */
  lemma StepSeen(i: Inspection, a: Step)
    requires Enabled(i, a)
    ensures
      var j := Apply(i, a);
      && j.queries == i.queries
      && j.announced == i.announced + (if a.Announce? then 1 else 0)
      && (i.returned ==> j.returned)
  {
  }

  lemma StepInScan(s: Scan, k: nat, a: Step)
    requires ScanInv(s) && CanDo(s, Of(k, a))
    ensures ScanInv(Do(s, Of(k, a)))
  {
    hide Inv, Enabled, Apply;
    var i := s.services[k];
    var t := Do(s, Of(k, a));
    StepSeen(i, a);
    assert forall m | 0 <= m < |t.services| :: Inv(t.services[m]) by {
      StepKeepsInv(i, a);
    }
    assert t.total == Sum(t.services, QUERY_COUNT) by {
      SumUpdate(s.services, QUERY_COUNT, k, t.services[k]);
    }
    assert t.received + t.buffered == Sum(t.services, ANNOUNCED_COUNT) by {
      SumUpdate(s.services, ANNOUNCED_COUNT, k, t.services[k]);
    }
  }

  lemma ActionKeepsInv(s: Scan, x: Action)
    requires ScanInv(s) && CanDo(s, x)
    ensures ScanInv(Do(s, x))
  {
    match x
    case Of(k, a) => StepInScan(s, k, a);
    case BarReceive =>
    case CloseCurrent =>
    case CloseDone =>
  }

  // ---- Runs ----

  ghost predicate Next(s: Scan, t: Scan) {
    exists x :: CanDo(s, x) && t == Do(s, x)
  }

  ghost predicate IsStart(s: Scan) {
    exists services: seq<Service>, fold :: s == StartScan(BeginAll(services, fold))
  }

  lemma NextKeepsInv(s: Scan, t: Scan)
    requires ScanInv(s) && Next(s, t)
    ensures ScanInv(t)
  {
    var x :| CanDo(s, x) && t == Do(s, x);
    ActionKeepsInv(s, x);
  }

  lemma StartsKeepInv(s: Scan)
    requires IsStart(s)
    ensures ScanInv(s)
  {
    var services, fold :| s == StartScan(BeginAll(services, fold));
    StartInv(services, fold);
  }

  ghost predicate IsRun(run: seq<Scan>) {
    && run != []
    && IsStart(run[0])
    && forall i | 0 < i < |run| :: Follows(run, i)
  }

  ghost predicate Follows(run: seq<Scan>, i: nat)
    requires 0 < i < |run|
  {
    Next(run[i - 1], run[i])
  }

  lemma {:induction false} RunsKeepInv(run: seq<Scan>, i: nat)
    requires IsRun(run) && i < |run|
    ensures ScanInv(run[i])
  {
    if i == 0 {
      StartsKeepInv(run[0]);
    } else {
      RunsKeepInv(run, i - 1);
      assert Follows(run, i);
      NextKeepsInv(run[i - 1], run[i]);
    }
  }

  /** No send ever meets a closed channel, a result never waits for a free place, and the
      progress bar never reads from the closed channel. */
  lemma SafeInEveryRun(run: seq<Scan>, i: nat, k: nat, w: nat)
    requires IsRun(run) && i < |run| && k < |run[i].services| && w < |run[i].services[k].workers|
    ensures
      var s := run[i];
      var v := s.services[k].workers[w];
      && (v.Announcing? ==> !s.currentClosed)
      && (v.Reporting? ==> !s.services[k].resultsClosed && |s.services[k].results| < |s.services[k].queries|)
      && (s.barRunning ==> !s.currentClosed)
      && (s.currentClosed ==> s.buffered == 0 && s.received == s.total)
  {
    RunsKeepInv(run, i);
    var s := run[i];
    if s.services[k].workers[w].Reporting? {
      ReportNeverBlocks(s.services[k], w);
    }
    AnnouncedAtMost(s);
  }

  lemma AnnouncedAtMost(s: Scan)
    requires ScanInv(s)
    ensures s.received + s.buffered <= s.total
  {
    forall k | 0 <= k < |s.services| ensures ANNOUNCED_COUNT(s.services[k]) <= QUERY_COUNT(s.services[k]) {
      assert Inv(s.services[k]);
    }
    SumCompare(s.services, ANNOUNCED_COUNT, QUERY_COUNT);
  }

  /** Once a worker took a query, in every later state that query was taken by that worker. */
  lemma {:induction false} TakersStay(run: seq<Scan>, i: nat, j: nat, k: nat)
    requires IsRun(run) && i <= j < |run| && k < |run[i].services|
    ensures |run[j].services| == |run[i].services|
    ensures run[i].services[k].takenBy <= run[j].services[k].takenBy
    decreases j
  {
    hide ScanInv;
    if i < j {
      TakersStay(run, i, j - 1, k);
      RunsKeepInv(run, j - 1);
      assert Follows(run, j);
      OneStepTakers(run[j - 1], run[j], k);
    }
  }

  lemma OneStepTakers(s: Scan, t: Scan, k: nat)
    requires ScanInv(s) && Next(s, t) && k < |s.services|
    ensures |t.services| == |s.services| && s.services[k].takenBy <= t.services[k].takenBy
  {
    hide Inv, Enabled, Apply;
    var x :| CanDo(s, x) && t == Do(s, x);
    if x.Of? {
      TakenOnce(s.services[x.k], x.a);
    }
  }

  // ---- No stuck state ----

  /** Every service with queries has a worker. */
  ghost predicate Staffed(s: Scan) {
    forall k | 0 <= k < |s.services| :: s.services[k].queries == [] || s.services[k].workers != []
  }

  lemma SomeoneAnnouncing(s: Scan, k: nat, w: nat)
    requires ScanInv(s) && k < |s.services| && w < |s.services[k].workers|
    requires s.services[k].workers[w].Announcing?
    ensures s.received + s.buffered < s.total && !s.currentClosed
  {
    forall j | 0 <= j < |s.services| ensures ANNOUNCED_COUNT(s.services[j]) <= QUERY_COUNT(s.services[j]) {
      assert Inv(s.services[j]);
    }
    SumCompare(s.services, ANNOUNCED_COUNT, QUERY_COUNT);
    NoAnnouncers(s.services[k].workers);
    assert ANNOUNCED_COUNT(s.services[k]) < QUERY_COUNT(s.services[k]);
  }

  lemma AllAnnounced(s: Scan)
    requires ScanInv(s) && Staffed(s) && AllReturned(s)
    ensures s.received + s.buffered == s.total
  {
    forall k | 0 <= k < |s.services| ensures ANNOUNCED_COUNT(s.services[k]) == QUERY_COUNT(s.services[k]) {
      ReturnsAllFindings(s.services[k]);
      NoAnnouncers(s.services[k].workers);
    }
    SumCompare(s.services, ANNOUNCED_COUNT, QUERY_COUNT);
  }

  /** While the scan is not done, somebody can move. */
  lemma NotStuck(s: Scan) returns (x: Action)
    requires ScanInv(s) && Staffed(s) && !s.wgDone
    ensures CanDo(s, x)
  {
    if k, w :| 0 <= k < |s.services| && 0 <= w < |s.services[k].workers| && s.services[k].workers[w].Announcing? {
      SomeoneAnnouncing(s, k, w);
      x := if s.buffered == 0 then Of(k, Announce(w)) else BarReceive;
    } else if k :| 0 <= k < |s.services| && !s.services[k].returned {
      var a := CanMove(s.services[k]);
      x := Of(k, a);
    } else if !s.currentClosed {
      AllAnnounced(s);
      x := if s.barRunning then BarReceive else CloseCurrent;
    } else {
      x := CloseDone;
    }
  }

  // ---- Every run ends ----

  function StepsLeft(s: Scan): nat {
    Sum(s.services, REMAINING_STEPS) + s.buffered + Flag(!s.barRunning) + Flag(s.currentClosed) + Flag(s.wgDone)
  }

  lemma ActionsRunOut(s: Scan, x: Action)
    requires ScanInv(s) && CanDo(s, x)
    ensures StepsLeft(Do(s, x)) < StepsLeft(s)
  {
    if x.Of? {
      var old_, new_ := s.services[x.k], Apply(s.services[x.k], x.a);
      StepKeepsInv(old_, x.a);
      StepsRunOut(old_, x.a);
      SumUpdate(s.services, REMAINING_STEPS, x.k, new_);
    }
  }

  lemma NextShrinks(s: Scan, t: Scan)
    requires ScanInv(s) && Next(s, t)
    ensures StepsLeft(t) < StepsLeft(s)
  {
    var x :| CanDo(s, x) && t == Do(s, x);
    ActionsRunOut(s, x);
  }

  lemma {:induction false} RunsAreShort(run: seq<Scan>, i: nat)
    requires IsRun(run) && i < |run|
    ensures StepsLeft(run[i]) + i <= StepsLeft(run[0])
  {
    hide StepsLeft, Next, ScanInv;
    if i > 0 {
      RunsAreShort(run, i - 1);
      RunsKeepInv(run, i - 1);
      assert Follows(run, i);
      NextShrinks(run[i - 1], run[i]);
    }
  }

  ghost predicate SameStaff(s: Scan, t: Scan) {
    && |s.services| == |t.services|
    && forall k | 0 <= k < |s.services| ::
         && s.services[k].queries == t.services[k].queries
         && |s.services[k].workers| == |t.services[k].workers|
  }

  lemma ActionKeepsStaff(s: Scan, x: Action)
    requires CanDo(s, x)
    ensures SameStaff(s, Do(s, x))
  {
    if x.Of? {
      var i, j := s.services[x.k], Apply(s.services[x.k], x.a);
      assert i.queries == j.queries && |i.workers| == |j.workers|;
    }
  }

  lemma {:induction false} StaffKept(run: seq<Scan>, i: nat)
    requires IsRun(run) && i < |run|
    ensures SameStaff(run[0], run[i])
  {
    if i > 0 {
      StaffKept(run, i - 1);
      assert Follows(run, i);
      var x :| CanDo(run[i - 1], x) && run[i] == Do(run[i - 1], x);
      ActionKeepsStaff(run[i - 1], x);
    }
  }

  ghost predicate Halted(s: Scan) {
    forall x :: !CanDo(s, x)
  }

  ghost predicate Maximal(run: seq<Scan>) {
    IsRun(run) && Halted(run[|run| - 1])
  }

  /** What a completed scan leaves behind. */
  ghost predicate Complete(s: Scan) {
    && s.wgDone && s.currentClosed && !s.barRunning
    && s.received == s.total == Sum(s.services, QUERY_COUNT)
    && forall k | 0 <= k < |s.services| ::
         var i := s.services[k];
         && i.returned
         && multiset(i.vulnerabilities) == AllFound(i.queries)
         && i.failed == (set j | 0 <= j < |i.queries| && i.queries[j].RunError?)
  }

  lemma DoneIsComplete(s: Scan)
    requires ScanInv(s) && Staffed(s) && s.wgDone
    ensures Complete(s)
  {
    AnnouncedAtMost(s);
    forall k | 0 <= k < |s.services| ensures
      && multiset(s.services[k].vulnerabilities) == AllFound(s.services[k].queries)
      && s.services[k].failed == (set j | 0 <= j < |s.services[k].queries| && s.services[k].queries[j].RunError?)
    {
      ReturnsAllFindings(s.services[k]);
    }
  }

  /** A service with queries and no worker never announces them, so the bar never stops waiting. */
  lemma NeverDone(s: Scan)
    requires ScanInv(s) && !Staffed(s)
    ensures !s.wgDone && s.barRunning
  {
    var k :| 0 <= k < |s.services| && s.services[k].queries != [] && s.services[k].workers == [];
    var i := s.services[k];
    forall j | 0 <= j < |s.services| ensures ANNOUNCED_COUNT(s.services[j]) <= QUERY_COUNT(s.services[j]) {
      assert Inv(s.services[j]);
    }
    SumCompare(s.services, ANNOUNCED_COUNT, QUERY_COUNT);
    assert ANNOUNCED_COUNT(i) < QUERY_COUNT(i);
  }

  lemma SameStaffing(s: Scan, t: Scan)
    requires SameStaff(s, t)
    ensures Staffed(s) <==> Staffed(t)
  {
  }

  lemma CompleteIsDone(s: Scan)
    ensures Complete(s) ==> s.wgDone
  {
  }

  /** Every run stops after a bounded number of steps, and where it stops the scan is complete,
      with every query announced, received and reported, exactly when every service with
      queries has a worker. */
  lemma ScansComplete(run: seq<Scan>)
    requires IsRun(run)
    ensures |run| <= StepsLeft(run[0]) + 1
    ensures Maximal(run) ==> (Complete(run[|run| - 1]) <==> Staffed(run[0]))
    ensures Maximal(run) ==> (run[|run| - 1].wgDone <==> Staffed(run[0]))
  {
    hide IsStart, Follows, CanDo, ScanInv, Staffed, SameStaff, Complete, StepsLeft;
    var last := run[|run| - 1];
    RunsAreShort(run, |run| - 1);
    RunsKeepInv(run, |run| - 1);
    StaffKept(run, |run| - 1);
    SameStaffing(run[0], last);
    CompleteIsDone(last);
    if Maximal(run) {
      if Staffed(run[0]) {
        if !last.wgDone {
          var x := NotStuck(last);
          assert false;
        }
        DoneIsComplete(last);
      } else {
        NeverDone(last);
      }
    }
  }
}
