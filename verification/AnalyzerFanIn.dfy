/** The file analyzer: one worker per file, a collector that selects among three channels, and a
    goroutine that ends the collector once all workers are done and then closes the channels. */
module AnalyzerFanIn {
  import opened Sequences
  import opened Wrappers

  /** What analyzing a file comes to. Fixed per run, otherwise arbitrary. */
  datatype Outcome = Typed(kind: string, lines: int) | Unwanted(path: string) | Skipped

  /** Whether a worker has sent nothing yet, has sent the type but not the lines, or is done. */
  datatype Worker = Ready | Counting | Exited

  // ---- The collector ----

  datatype Event = Kind(kind: string) | Path(path: string) | Lines(lines: int)

  datatype Totals = Totals(types: seq<string>, unwanted: seq<string>, loc: int)

  function Add(s: seq<string>, x: string): seq<string> {
    if x in s then s else s + [x]
  }

  /** What the collector holds after it was served these events, in this order. */
  function Collected(events: seq<Event>): Totals {
    if events == [] then Totals([], [], 0)
    else
      var t := Collected(events[..|events| - 1]);
      match events[|events| - 1]
      case Kind(kind) => t.(types := Add(t.types, kind))
      case Path(path) => t.(unwanted := Add(t.unwanted, path))
      case Lines(lines) => t.(loc := t.loc + lines)
  }

  /** What the select statement served before it served the done channel, which is None here. */
  function BeforeDone(served: seq<Option<Event>>): seq<Event>
    requires None in served
  {
    if served[0].None? then [] else [served[0].value] + BeforeDone(served[1..])
  }

  lemma {:induction false} BeforeDoneIs(served: seq<Option<Event>>, n: nat)
    requires n < |served| && served[n].None? && forall i | 0 <= i < n :: served[i].Some?
    ensures |BeforeDone(served)| == n && forall i | 0 <= i < n :: served[i] == Some(BeforeDone(served)[i])
  {
    if n > 0 {
      assert served[1..][n - 1] == None;
      BeforeDoneIs(served[1..], n - 1);
    }
  }

  /** The loop ends with the first value from the done channel, whatever else could be served. */
  method ComputeValues(served: seq<Option<Event>>) returns (types: seq<string>, unwanted: seq<string>, loc: int)
    requires None in served
    ensures Totals(types, unwanted, loc) == Collected(BeforeDone(served))
  {
    types, unwanted, loc := [], [], 0;
    ghost var events: seq<Event> := [];
    var i := 0;
    while true
      invariant i == |events| && i <= |served| && None in served[i..]
      invariant forall k | 0 <= k < i :: served[k] == Some(events[k])
      invariant Totals(types, unwanted, loc) == Collected(events)
      decreases |served| - i
    {
      if served[i].None? {
        BeforeDoneIs(served, i);
        assert events == BeforeDone(served);
        return;
      }
      var e := served[i].value;
      assert served[i..] == [served[i]] + served[i + 1..];
      CollectedSnoc(events, e);
      match e {
        case Lines(lines) => loc := loc + lines;
        case Path(path) => if path !in unwanted { unwanted := unwanted + [path]; }
        case Kind(kind) => if kind !in types { types := types + [kind]; }
      }
      events, i := events + [e], i + 1;
    }
  }

  lemma CollectedSnoc(events: seq<Event>, e: Event)
    ensures Collected(events + [e]) ==
            var t := Collected(events);
            match e
            case Kind(kind) => t.(types := Add(t.types, kind))
            case Path(path) => t.(unwanted := Add(t.unwanted, path))
            case Lines(lines) => t.(loc := t.loc + lines)
  {
    assert (events + [e])[..|events|] == events;
  }

  // ---- The protocol ----

  /** The types and the line counts are handed over directly, the unwanted paths through a buffer
      with one place per file. `received` is what the collector was served. The last step of the
      closing goroutine closes the three channels one after the other. */
  datatype Analysis = Analysis(
    outcomes: seq<Outcome>, workers: seq<Worker>,
    buffer: seq<string>, received: seq<Event>, returned: bool, closed: nat)

  function Begin(outcomes: seq<Outcome>): Analysis {
    Analysis(outcomes, seq(|outcomes|, _ => Ready), [], [], false, 0)
  }

  datatype Step =
    | HandType(w: nat) | HandLines(w: nat) | SendUnwanted(w: nat) | Skip(w: nat)
    | ReceiveUnwanted | HandDone | Close

  predicate At(s: Analysis, w: nat, state: Worker) {
    w < |s.workers| && w < |s.outcomes| && s.workers[w] == state
  }

  predicate AllExited(s: Analysis) {
    forall w | 0 <= w < |s.workers| :: s.workers[w].Exited?
  }

  predicate Enabled(s: Analysis, a: Step) {
    match a
    case HandType(w) => At(s, w, Ready) && s.outcomes[w].Typed? && !s.returned && s.closed < 2
    case HandLines(w) => At(s, w, Counting) && s.outcomes[w].Typed? && !s.returned && s.closed < 3
    case SendUnwanted(w) =>
      At(s, w, Ready) && s.outcomes[w].Unwanted? && s.closed < 1 && |s.buffer| < |s.outcomes|
    case Skip(w) => At(s, w, Ready) && s.outcomes[w].Skipped?
    case ReceiveUnwanted => !s.returned && s.buffer != []
    case HandDone => !s.returned && AllExited(s)
    case Close => s.returned && s.closed < 3
  }

  function Apply(s: Analysis, a: Step): Analysis
    requires Enabled(s, a)
  {
    match a
    case HandType(w) => s.(workers := s.workers[w := Counting], received := s.received + [Kind(s.outcomes[w].kind)])
    case HandLines(w) => s.(workers := s.workers[w := Exited], received := s.received + [Lines(s.outcomes[w].lines)])
    case SendUnwanted(w) => s.(workers := s.workers[w := Exited], buffer := s.buffer + [s.outcomes[w].path])
    case Skip(w) => s.(workers := s.workers[w := Exited])
    case ReceiveUnwanted => s.(buffer := s.buffer[1..], received := s.received + [Path(s.buffer[0])])
    case HandDone => s.(returned := true)
    case Close => s.(closed := s.closed + 1)
  }

  // ---- What every step keeps ----

  function Count(workers: seq<Worker>): nat {
    if workers == [] then 0
    else Count(workers[..|workers| - 1]) + if workers[|workers| - 1].Exited? then 1 else 0
  }

  function LinesOf(o: Outcome, w: Worker): int {
    if o.Typed? && w.Exited? then o.lines else 0
  }

  /** The lines that the workers have sent. */
  function SentLines(outcomes: seq<Outcome>, workers: seq<Worker>): int
    requires |outcomes| == |workers|
  {
    if workers == [] then 0
    else
      var n := |workers| - 1;
      SentLines(outcomes[..n], workers[..n]) + LinesOf(outcomes[n], workers[n])
  }

  ghost predicate SentKind(s: Analysis, kind: string)
    requires |s.outcomes| == |s.workers|
  {
    exists w :: 0 <= w < |s.workers| && !s.workers[w].Ready? && s.outcomes[w].Typed? && s.outcomes[w].kind == kind
  }

  ghost predicate SentPath(s: Analysis, path: string)
    requires |s.outcomes| == |s.workers|
  {
    exists w :: 0 <= w < |s.workers| && s.workers[w].Exited? && s.outcomes[w] == Unwanted(path)
  }

  ghost predicate Inv(s: Analysis) {
    var t := Collected(s.received);
    && |s.workers| == |s.outcomes|
    && (forall w | 0 <= w < |s.workers| :: s.workers[w].Counting? ==> s.outcomes[w].Typed?)
    && |s.buffer| <= Count(s.workers)
    && Distinct(t.types) && Distinct(t.unwanted)
    && (forall kind :: kind in t.types <==> SentKind(s, kind))
    && (forall path :: path in t.unwanted || path in s.buffer <==> SentPath(s, path))
    && t.loc == SentLines(s.outcomes, s.workers)
    && (s.returned ==> AllExited(s))
    && (s.closed > 0 ==> s.returned) && s.closed <= 3
  }

  lemma {:induction false} CountUpdate(workers: seq<Worker>, w: nat, x: Worker)
    requires w < |workers|
    ensures Count(workers[w := x]) == Count(workers) - (if workers[w].Exited? then 1 else 0) + (if x.Exited? then 1 else 0)
    ensures Count(workers) <= |workers| && (!workers[w].Exited? ==> Count(workers) < |workers|)
  {
    var last := |workers| - 1;
    CountAtMost(workers[..last]);
    if w < last {
      CountUpdate(workers[..last], w, x);
      assert workers[w := x][..last] == workers[..last][w := x];
    } else {
      assert workers[w := x][..last] == workers[..last];
    }
  }

  lemma {:induction false} CountAtMost(workers: seq<Worker>)
    ensures Count(workers) <= |workers|
  {
    if workers != [] {
      CountAtMost(workers[..|workers| - 1]);
    }
  }

  lemma {:induction false} SentLinesUpdate(outcomes: seq<Outcome>, workers: seq<Worker>, w: nat, x: Worker)
    requires |outcomes| == |workers| && w < |workers|
    ensures SentLines(outcomes, workers[w := x])
            == SentLines(outcomes, workers) - LinesOf(outcomes[w], workers[w]) + LinesOf(outcomes[w], x)
  {
    var last := |workers| - 1;
    hide LinesOf;
    if w < last {
      SentLinesUpdate(outcomes[..last], workers[..last], w, x);
      assert workers[w := x][..last] == workers[..last][w := x];
    } else {
      assert workers[w := x][..last] == workers[..last];
    }
  }

  lemma BeginInv(outcomes: seq<Outcome>)
    ensures Inv(Begin(outcomes))
  {
    NothingSent(outcomes);
  }

  lemma {:induction false} NothingSent(outcomes: seq<Outcome>)
    ensures SentLines(outcomes, seq(|outcomes|, _ => Ready)) == 0
  {
    if outcomes != [] {
      var n := |outcomes| - 1;
      NothingSent(outcomes[..n]);
      assert seq(|outcomes|, _ => Ready)[..n] == seq(n, _ => Ready);
    }
  }

  lemma AddOne(s: seq<string>, x: string)
    requires Distinct(s)
    ensures Distinct(Add(s, x)) && forall y :: y in Add(s, x) <==> y in s || y == x
  {
  }

  lemma StepKeepsInv(s: Analysis, a: Step)
    requires Inv(s) && Enabled(s, a)
    ensures Inv(Apply(s, a))
  {
    match a
    case HandType(w) => TypeKeeps(s, w);
    case HandLines(w) => LinesKeep(s, w);
    case SendUnwanted(w) => UnwantedKeeps(s, w);
    case Skip(w) => SkipKeeps(s, w);
    case ReceiveUnwanted => ReceiveKeeps(s);
    case HandDone => SameSent(s, Apply(s, a));
    case Close => SameSent(s, Apply(s, a));
  }

  lemma SameSent(s: Analysis, s': Analysis)
    requires |s.outcomes| == |s.workers| && s'.workers == s.workers && s'.outcomes == s.outcomes
    ensures forall kind :: SentKind(s', kind) <==> SentKind(s, kind)
    ensures forall path :: SentPath(s', path) <==> SentPath(s, path)
  {
  }

  /** What is sent when a single worker moves. */
  lemma OneMoves(s: Analysis, s': Analysis, w: nat, x: Worker)
    requires |s.outcomes| == |s.workers| && w < |s.workers|
    requires s'.workers == s.workers[w := x] && s'.outcomes == s.outcomes
    requires s.workers[w].Ready? || (s.workers[w].Counting? && x.Exited? && !s.outcomes[w].Unwanted?)
    ensures forall kind :: SentKind(s', kind) <==> SentKind(s, kind) || (!x.Ready? && s.outcomes[w].Typed? && s.outcomes[w].kind == kind)
    ensures forall path :: SentPath(s', path) <==> SentPath(s, path) || (x.Exited? && s.outcomes[w] == Unwanted(path))
  {
    forall kind ensures SentKind(s', kind) <==> SentKind(s, kind) || (!x.Ready? && s.outcomes[w].Typed? && s.outcomes[w].kind == kind) {
      if SentKind(s, kind) {
        var v :| 0 <= v < |s.workers| && !s.workers[v].Ready? && s.outcomes[v].Typed? && s.outcomes[v].kind == kind;
        assert !s'.workers[v].Ready? || v == w;
      }
      assert s'.workers[w] == x;
    }
    forall path ensures SentPath(s', path) <==> SentPath(s, path) || (x.Exited? && s.outcomes[w] == Unwanted(path)) {
      if SentPath(s, path) {
        var v :| 0 <= v < |s.workers| && s.workers[v].Exited? && s.outcomes[v] == Unwanted(path);
        assert s'.workers[v].Exited?;
      }
      assert s'.workers[w] == x;
    }
  }

  lemma TypeKeeps(s: Analysis, w: nat)
    requires Inv(s) && Enabled(s, HandType(w))
    ensures Inv(Apply(s, HandType(w)))
  {
    var s' := Apply(s, HandType(w));
    CountUpdate(s.workers, w, Counting);
    SentLinesUpdate(s.outcomes, s.workers, w, Counting);
    CollectedSnoc(s.received, Kind(s.outcomes[w].kind));
    AddOne(Collected(s.received).types, s.outcomes[w].kind);
    hide Collected, Count, SentLines, SentKind, SentPath, Add, Distinct;
    OneMoves(s, s', w, Counting);
  }

  lemma LinesKeep(s: Analysis, w: nat)
    requires Inv(s) && Enabled(s, HandLines(w))
    ensures Inv(Apply(s, HandLines(w)))
  {
    var s' := Apply(s, HandLines(w));
    assert SentKind(s, s.outcomes[w].kind);
    CountUpdate(s.workers, w, Exited);
    SentLinesUpdate(s.outcomes, s.workers, w, Exited);
    CollectedSnoc(s.received, Lines(s.outcomes[w].lines));
    hide Collected, Count, SentLines, SentKind, SentPath, Add, Distinct;
    OneMoves(s, s', w, Exited);
  }

  lemma UnwantedKeeps(s: Analysis, w: nat)
    requires Inv(s) && Enabled(s, SendUnwanted(w))
    ensures Inv(Apply(s, SendUnwanted(w)))
  {
    var s' := Apply(s, SendUnwanted(w));
    CountUpdate(s.workers, w, Exited);
    SentLinesUpdate(s.outcomes, s.workers, w, Exited);
    hide Collected, Count, SentLines, SentKind, SentPath, Add, Distinct;
    OneMoves(s, s', w, Exited);
  }

  lemma SkipKeeps(s: Analysis, w: nat)
    requires Inv(s) && Enabled(s, Skip(w))
    ensures Inv(Apply(s, Skip(w)))
  {
    var s' := Apply(s, Skip(w));
    CountUpdate(s.workers, w, Exited);
    SentLinesUpdate(s.outcomes, s.workers, w, Exited);
    hide Collected, Count, SentLines, SentKind, SentPath, Add, Distinct;
    OneMoves(s, s', w, Exited);
  }

  lemma ReceiveKeeps(s: Analysis)
    requires Inv(s) && Enabled(s, ReceiveUnwanted)
    ensures Inv(Apply(s, ReceiveUnwanted))
  {
    var s' := Apply(s, ReceiveUnwanted);
    CollectedSnoc(s.received, Path(s.buffer[0]));
    AddOne(Collected(s.received).unwanted, s.buffer[0]);
    assert s.buffer == [s.buffer[0]] + s'.buffer;
    hide Collected, Count, SentLines, SentKind, SentPath, Add, Distinct;
    SameSent(s, s');
  }

  // ---- Runs ----

  ghost predicate Next(s: Analysis, t: Analysis) {
    exists a :: Enabled(s, a) && t == Apply(s, a)
  }

  ghost predicate Follows(run: seq<Analysis>, i: nat)
    requires 0 < i < |run|
  {
    Next(run[i - 1], run[i])
  }

  ghost predicate IsRun(run: seq<Analysis>) {
    && run != []
    && run[0] == Begin(run[0].outcomes)
    && forall i | 0 < i < |run| :: Follows(run, i)
  }

  lemma {:induction false} RunsKeepInv(run: seq<Analysis>, i: nat)
    requires IsRun(run) && i < |run|
    ensures Inv(run[i]) && run[i].outcomes == run[0].outcomes
  {
    hide Inv;
    if i == 0 {
      BeginInv(run[0].outcomes);
    } else {
      RunsKeepInv(run, i - 1);
      assert Follows(run, i);
      var a :| Enabled(run[i - 1], a) && run[i] == Apply(run[i - 1], a);
      StepKeepsInv(run[i - 1], a);
    }
  }

  /** While the collector selects no channel is closed, so it never reads from a closed one; a
      worker with something to send finds its channel open and, if buffered, with a free place. */
  lemma SafeInEveryRun(run: seq<Analysis>, i: nat, w: nat)
    requires IsRun(run) && i < |run|
    ensures !run[i].returned ==> run[i].closed == 0
    ensures w < |run[i].workers| && !run[i].workers[w].Exited? ==> run[i].closed == 0 && !run[i].returned
    ensures At(run[i], w, Ready) && run[i].outcomes[w].Unwanted? ==> Enabled(run[i], SendUnwanted(w))
  {
    RunsKeepInv(run, i);
    if w < |run[i].workers| {
      CountUpdate(run[i].workers, w, Exited);
    }
  }

  // ---- Every run ends ----

  function Weight(w: Worker): nat {
    match w
    case Ready => 3
    case Counting => 1
    case Exited => 0
  }

  function Weights(workers: seq<Worker>): nat {
    if workers == [] then 0 else Weights(workers[..|workers| - 1]) + Weight(workers[|workers| - 1])
  }

  lemma {:induction false} WeightsUpdate(workers: seq<Worker>, w: nat, x: Worker)
    requires w < |workers|
    ensures Weights(workers[w := x]) == Weights(workers) - Weight(workers[w]) + Weight(x)
  {
    var last := |workers| - 1;
    if w < last {
      WeightsUpdate(workers[..last], w, x);
      assert workers[w := x][..last] == workers[..last][w := x];
    } else {
      assert workers[w := x][..last] == workers[..last];
    }
  }

  function StepsLeft(s: Analysis): int {
    Weights(s.workers) + |s.buffer| + (if s.returned then 0 else 1) + 3 - s.closed
  }

  lemma StepsRunOut(s: Analysis, a: Step)
    requires Enabled(s, a)
    ensures StepsLeft(Apply(s, a)) < StepsLeft(s)
  {
    if a.HandType? || a.HandLines? || a.SendUnwanted? || a.Skip? {
      WeightsUpdate(s.workers, a.w, Apply(s, a).workers[a.w]);
    }
  }

  lemma {:induction false} RunsAreShort(run: seq<Analysis>, i: nat)
    requires IsRun(run) && i < |run|
    ensures StepsLeft(run[i]) + i <= StepsLeft(run[0])
  {
    hide StepsLeft, Inv;
    if i > 0 {
      RunsAreShort(run, i - 1);
      assert Follows(run, i);
      var a :| Enabled(run[i - 1], a) && run[i] == Apply(run[i - 1], a);
      StepsRunOut(run[i - 1], a);
    }
  }

  lemma NotStuck(s: Analysis) returns (a: Step)
    requires Inv(s) && s.closed < 3
    ensures Enabled(s, a) && !a.ReceiveUnwanted?
  {
    if w :| 0 <= w < |s.workers| && !s.workers[w].Exited? {
      CountUpdate(s.workers, w, Exited);
      a := if s.workers[w].Counting? then HandLines(w)
      else match s.outcomes[w]
        case Typed(_, _) => HandType(w)
        case Unwanted(_) => SendUnwanted(w)
        case Skipped => Skip(w);
    } else {
      a := if s.returned then Close else HandDone;
    }
  }

  ghost predicate Halted(s: Analysis) {
    forall a :: !Enabled(s, a)
  }

  ghost predicate Maximal(run: seq<Analysis>) {
    IsRun(run) && Halted(run[|run| - 1])
  }

  // ---- The result ----

  function AllLines(outcomes: seq<Outcome>): int {
    if outcomes == [] then 0
    else
      var o := outcomes[|outcomes| - 1];
      AllLines(outcomes[..|outcomes| - 1]) + if o.Typed? then o.lines else 0
  }

  lemma {:induction false} AllSent(outcomes: seq<Outcome>, workers: seq<Worker>)
    requires |outcomes| == |workers| && forall w | 0 <= w < |workers| :: workers[w].Exited?
    ensures SentLines(outcomes, workers) == AllLines(outcomes)
  {
    if workers != [] {
      AllSent(outcomes[..|outcomes| - 1], workers[..|workers| - 1]);
    }
  }

  /** What a finished collector holds: the types of all files without repetition, all their lines,
      and some of the unwanted paths without repetition. */
  ghost predicate Complete(s: Analysis) {
    var t := Collected(s.received);
    && Distinct(t.types) && (forall kind :: kind in t.types <==> exists o :: o in s.outcomes && o.Typed? && o.kind == kind)
    && t.loc == AllLines(s.outcomes)
    && Distinct(t.unwanted) && (forall path | path in t.unwanted :: Unwanted(path) in s.outcomes)
  }

  ghost predicate AllUnwanted(s: Analysis) {
    forall path :: path in Collected(s.received).unwanted <==> Unwanted(path) in s.outcomes
  }

  /** No unwanted path is left in the buffer only. */
  ghost predicate NothingLeft(s: Analysis) {
    forall path | path in s.buffer :: path in Collected(s.received).unwanted
  }

  lemma ReturnedIsComplete(s: Analysis)
    requires Inv(s) && s.returned
    ensures Complete(s)
    ensures AllUnwanted(s) <==> NothingLeft(s)
  {
    AllSent(s.outcomes, s.workers);
    forall kind ensures SentKind(s, kind) <==> exists o :: o in s.outcomes && o.Typed? && o.kind == kind {
      if o :| o in s.outcomes && o.Typed? && o.kind == kind {
        var w :| 0 <= w < |s.outcomes| && s.outcomes[w] == o;
        assert !s.workers[w].Ready?;
      }
    }
    forall path ensures SentPath(s, path) <==> Unwanted(path) in s.outcomes {
      if Unwanted(path) in s.outcomes {
        var w :| 0 <= w < |s.outcomes| && s.outcomes[w] == Unwanted(path);
        assert s.workers[w].Exited?;
      }
    }
    hide Collected, Distinct, SentKind, SentPath, SentLines, AllLines, Count;
  }

  /** In every interleaving the analysis stops, with everything closed, and the collector has all
      types and all lines; it has all unwanted paths exactly if none is left in the buffer only. */
  lemma AnalysesComplete(run: seq<Analysis>)
    requires IsRun(run)
    ensures |run| <= StepsLeft(run[0]) + 1
    ensures Maximal(run) ==> run[|run| - 1].returned && run[|run| - 1].closed == 3
    ensures
      var last := run[|run| - 1];
      last.returned ==> Complete(last) && (AllUnwanted(last) <==> NothingLeft(last))
  {
    hide Complete, AllUnwanted, NothingLeft;
    var last := run[|run| - 1];
    RunsAreShort(run, |run| - 1);
    RunsKeepInv(run, |run| - 1);
    StepsLeftOver(last);
    if Maximal(run) && last.closed < 3 {
      var a := NotStuck(last);
      assert false;
    }
    if last.returned {
      ReturnedIsComplete(last);
    }
  }

  lemma StepsLeftOver(s: Analysis)
    requires Inv(s)
    ensures StepsLeft(s) >= 0 && (s.closed == 3 ==> s.returned)
  {
  }

  // ---- Which paths are reported ----

  ghost predicate NothingRead(s: Analysis) {
    Collected(s.received).unwanted == []
  }

  lemma ClosedHalts(s: Analysis)
    requires Inv(s) && s.closed == 3
    ensures Halted(s)
  {
    assert s.returned && AllExited(s);
  }

  lemma StepReadsNothing(s: Analysis, a: Step)
    requires NothingRead(s) && Enabled(s, a) && !a.ReceiveUnwanted?
    ensures NothingRead(Apply(s, a))
  {
    if a.HandType? {
      CollectedSnoc(s.received, Kind(s.outcomes[a.w].kind));
    } else if a.HandLines? {
      CollectedSnoc(s.received, Lines(s.outcomes[a.w].lines));
    }
  }

  lemma {:induction false} GoOn(run: seq<Analysis>) returns (whole: seq<Analysis>)
    requires IsRun(run) && NothingRead(run[|run| - 1])
    ensures Maximal(whole) && whole[0] == run[0] && NothingRead(whole[|whole| - 1])
    decreases StepsLeft(run[|run| - 1])
  {
    hide Inv, NothingRead, StepsLeft, Halted;
    var last := run[|run| - 1];
    RunsKeepInv(run, |run| - 1);
    StepsLeftOver(last);
    if last.closed == 3 {
      ClosedHalts(last);
      whole := run;
    } else {
      ClosedAtMost(last);
      var a := NotStuck(last);
      StepsRunOut(last, a);
      StepReadsNothing(last, a);
      var more := run + [Apply(last, a)];
      forall i | 0 < i < |more| ensures Follows(more, i) {
        if i < |run| {
          assert Follows(run, i);
        } else {
          assert Next(last, Apply(last, a));
        }
      }
      RunsKeepInv(more, |more| - 1);
      StepsLeftOver(Apply(last, a));
      whole := GoOn(more);
    }
  }

  lemma ClosedAtMost(s: Analysis)
    requires Inv(s)
    ensures s.closed <= 3
  {
  }

  /** For any files there is an interleaving that runs to its end and in which the collector never
      looks at an unwanted path. */
  lemma UnwantedCanBeLost(outcomes: seq<Outcome>) returns (run: seq<Analysis>)
    ensures Maximal(run) && run[0] == Begin(outcomes)
    ensures Collected(run[|run| - 1].received).unwanted == []
  {
    hide Maximal;
    run := GoOn([Begin(outcomes)]);
  }

  ghost predicate AlwaysReported(outcomes: seq<Outcome>) {
    forall run | Maximal(run) && run[0] == Begin(outcomes) :: AllUnwanted(run[|run| - 1])
  }

  /** All unwanted paths are reported in every interleaving exactly if there are none. */
  lemma ReportedIffNone(outcomes: seq<Outcome>)
    ensures AlwaysReported(outcomes) <==> forall o | o in outcomes :: !o.Unwanted?
  {
    if o :| o in outcomes && o.Unwanted? {
      var run := UnwantedCanBeLost(outcomes);
      RunsKeepInv(run, |run| - 1);
      hide Maximal, Inv, Collected;
      assert o == Unwanted(o.path);
      assert !AllUnwanted(run[|run| - 1]);
    } else {
      forall run | Maximal(run) && run[0] == Begin(outcomes) ensures AllUnwanted(run[|run| - 1]) {
        AnalysesComplete(run);
        RunsKeepInv(run, |run| - 1);
      }
    }
  }
}
