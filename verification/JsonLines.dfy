/** The two passes that give every JSON key its line: a loop over the tokens fills queues of
    lines, and a recursive walk over the decoded document takes the lines out again. */
module JsonLines {
  import opened JsonDocument
  import opened JsonTracker

  /** The queue of lines of every token text, per joined path. */
  type LineInfo = map<string, map<string, seq<nat>>>

  function Queue(info: LineInfo, text: string, path: string): seq<nat> {
    if text in info && path in info[text] then info[text][path] else []
  }

  // ---- First pass ----

  class PathTracker {
    var tmpParent: string
    var pathArr: seq<string>
    var lastWasDelim: bool
    var noRemoveIdx: map<int, string>
    var parent: string

    ghost predicate Valid()
      reads this
    {
      parent == Join(pathArr) && (lastWasDelim ==> pathArr != [])
    }

    ghost function State(): PathState
      reads this
    {
      PathState(tmpParent, pathArr, lastWasDelim, noRemoveIdx)
    }

    constructor ()
      ensures Valid() && State() == START
    {
      tmpParent, pathArr, lastWasDelim, noRemoveIdx, parent := "", [], false, map[], "";
    }

    /** A closing delimiter needs an opening one before it, which the decoder guarantees. */
    method DelimSetup(d: Delim)
      requires Valid() && (Opening(d) || pathArr != [])
      modifies this
      ensures Valid() && State() == DelimStep(old(State()), d) && pathArr != []
    {
      var top := |pathArr| - 1;
      if d.LBrace? || d.LBracket? {
        if !lastWasDelim {
          pathArr := pathArr + [tmpParent];
        } else {
          if tmpParent != pathArr[top] {
            tmpParent := pathArr[top];
            noRemoveIdx := noRemoveIdx[top := tmpParent];
          } else {
            noRemoveIdx := noRemoveIdx[top := tmpParent];
          }
        }
        parent := Join(pathArr);
      } else {
        CloseBrackets(top);
      }
      lastWasDelim := true;
    }

    method CloseBrackets(top: int)
      requires Valid() && pathArr != [] && top == |pathArr| - 1
      modifies `pathArr, `noRemoveIdx, `parent
      ensures Valid() && pathArr != []
      ensures State().(lastWasDelim := true) == DelimStep(old(State()), RBrace) == DelimStep(old(State()), RBracket)
    {
      if top > 0 {
        if top in noRemoveIdx {
          if pathArr[top] != noRemoveIdx[top] {
            pathArr := pathArr[..top];
          } else {
            noRemoveIdx := noRemoveIdx - {top};
          }
        } else {
          pathArr := pathArr[..top];
        }
      }
      parent := Join(pathArr);
    }
  }

  ghost predicate Opened(toks: seq<Token>, i: nat)
    requires i <= |toks|
  {
    exists j | 0 <= j < i :: toks[j].Delimiter? && Opening(toks[j].d)
  }

  /** What the decoder guarantees: no closing delimiter comes first, and offsets only grow. */
  ghost predicate FromDecoder(doc: string, toks: seq<Token>) {
    && (forall i | 0 <= i < |toks| && toks[i].Delimiter? && !Opening(toks[i].d) :: Opened(toks, i))
    && (forall i | 0 <= i < |toks| && toks[i].Text? :: toks[i].end <= |doc|)
    && (forall i, j | 0 <= i < j < |toks| && toks[i].Text? && toks[j].Text? :: toks[i].end <= toks[j].end)
  }

  /** The lines recorded for a text under a joined path, in document order. */
  function Recorded(doc: string, log: seq<Entry>, text: string, path: string): seq<nat>
    requires InText(doc, log)
  {
    if log == [] then []
    else
      var e := log[|log| - 1];
      Recorded(doc, log[..|log| - 1], text, path)
      + if e.text == text && Join(e.where) == path then [LineAt(doc, e.end)] else []
  }

  ghost predicate Sorted(q: seq<nat>) {
    forall i, j | 0 <= i < j < |q| :: q[i] <= q[j]
  }

  /** The running line after the bytes between two token ends. */
  method AdvanceLine(doc: string, prev: nat, end: nat, line: nat) returns (next: nat)
    requires prev <= end <= |doc| && line == LineAt(doc, prev)
    ensures next == LineAt(doc, end) && next >= line
  {
    next := line;
    for k := prev to end
      invariant next == LineAt(doc, k) && next >= line
    {
      if doc[k] == '\n' {
        next := next + 1;
      }
    }
  }

  /** Adds a line to the queue of a text, under a new text, a new path, or both known. */
  method InsertLine(info: LineInfo, text: string, path: string, line: nat) returns (next: LineInfo)
    ensures Queue(next, text, path) == Queue(info, text, path) + [line]
    ensures forall t, p :: (t, p) != (text, path) ==> Queue(next, t, p) == Queue(info, t, p)
    ensures next.Keys == info.Keys + {text}
    ensures forall t, p :: t in next && p in next[t] <==> (t in info && p in info[t]) || (t, p) == (text, path)
  {
    if text !in info {
      next := info[text := map[path := [line]]];
    } else if path in info[text] {
      next := info[text := info[text][path := info[text][path] + [line]]];
    } else {
      next := info[text := info[text][path := [line]]];
    }
  }

  ghost predicate Holds(info: LineInfo, doc: string, log: seq<Entry>)
    requires InText(doc, log)
  {
    forall text, path :: Matches(info, doc, log, text, path)
  }

  /** `info` holds exactly the lines recorded for a text under a path, in order, and no queue
      when there are none. */
  ghost predicate Matches(info: LineInfo, doc: string, log: seq<Entry>, text: string, path: string)
    requires InText(doc, log)
  {
    && Queue(info, text, path) == Recorded(doc, log, text, path)
    && (text in info && path in info[text] ==> info[text][path] != [])
    && Sorted(Queue(info, text, path))
  }

  ghost predicate UpTo(info: LineInfo, line: nat) {
    forall text, path :: AtMost(Queue(info, text, path), line)
  }

  ghost predicate AtMost(q: seq<nat>, line: nat) {
    forall i | 0 <= i < |q| :: q[i] <= line
  }

  method Record(info: LineInfo, doc: string, ghost log: seq<Entry>, text: string, path: string, line: nat, ghost e: Entry)
    returns (next: LineInfo)
    requires InText(doc, log) && Holds(info, doc, log) && UpTo(info, line)
    requires e.end <= |doc| && text == e.text && path == Join(e.where) && line == LineAt(doc, e.end)
    ensures InText(doc, log + [e]) && Holds(next, doc, log + [e]) && UpTo(next, line)
  {
    next := InsertLine(info, text, path, line);
    assert InText(doc, log + [e]);
    hide Matches, AtMost, InText, Join;
    forall t, p ensures Matches(next, doc, log + [e], t, p) && AtMost(Queue(next, t, p), line) {
      assert Matches(info, doc, log, t, p) && AtMost(Queue(info, t, p), line);
      MatchesStep(info, next, doc, log, e, line, t, p);
    }
  }

  lemma MatchesStep(info: LineInfo, next: LineInfo, doc: string, log: seq<Entry>, e: Entry, line: nat, t: string, p: string)
    requires InText(doc, log) && e.end <= |doc| && line == LineAt(doc, e.end)
    requires Matches(info, doc, log, t, p) && AtMost(Queue(info, t, p), line)
    requires t in next && p in next[t] <==> (t in info && p in info[t]) || (t == e.text && p == Join(e.where))
    requires Queue(next, t, p) == if t == e.text && p == Join(e.where) then Queue(info, t, p) + [line] else Queue(info, t, p)
    ensures InText(doc, log + [e])
    ensures Matches(next, doc, log + [e], t, p) && AtMost(Queue(next, t, p), line)
  {
    assert (log + [e])[..|log|] == log;
    hide Join, LineAt;
  }

  lemma NextToken(toks: seq<Token>, i: nat, r: TrackRun)
    requires i < |toks| && Track(START, toks[..i]) == r
    ensures Track(START, toks[..i + 1]) ==
            match toks[i]
            case Delimiter(d) => TrackRun(DelimStep(r.state, d), r.log)
            case Text(text, end) =>
              TrackRun(r.state.(tmpParent := text, lastWasDelim := false), r.log + [Entry(text, r.state.pathArr, end)])
  {
    assert toks[..i + 1][..i] == toks[..i];
  }

  lemma UpToGrows(info: LineInfo, a: nat, b: nat)
    requires UpTo(info, a) && a <= b
    ensures UpTo(info, b)
  {
  }

  /** The offsets of the tokens not read yet. */
  ghost predicate Ahead(doc: string, toks: seq<Token>, i: nat, prev: nat) {
    prev <= |doc| && forall j | i <= j < |toks| && toks[j].Text? :: prev <= toks[j].end <= |doc|
  }

  lemma NextOffset(doc: string, toks: seq<Token>, i: nat, prev: nat)
    requires FromDecoder(doc, toks) && i < |toks| && Ahead(doc, toks, i, prev)
    ensures Ahead(doc, toks, i + 1, if toks[i].Text? then toks[i].end else prev)
    ensures toks[i].Text? ==> prev <= toks[i].end <= |doc|
    ensures toks[i].Delimiter? && !Opening(toks[i].d) ==> Opened(toks, i)
    ensures Opened(toks, i + 1) ==> Opened(toks, i) || (toks[i].Delimiter? && Opening(toks[i].d))
  {
  }

  /** The body of the token loop for a token that is no delimiter. */
  method ReadText(doc: string, text: string, end: nat, tracker: PathTracker, prev: nat, line: nat, info: LineInfo, ghost log: seq<Entry>)
    returns (nextLine: nat, nextInfo: LineInfo)
    requires tracker.Valid() && prev <= end <= |doc| && line == LineAt(doc, prev)
    requires InText(doc, log) && Holds(info, doc, log) && UpTo(info, line)
    modifies tracker`lastWasDelim, tracker`tmpParent
    ensures tracker.Valid() && tracker.State() == old(tracker.State()).(tmpParent := text, lastWasDelim := false)
    ensures nextLine == LineAt(doc, end)
    ensures InText(doc, log + [Entry(text, tracker.pathArr, end)])
    ensures Holds(nextInfo, doc, log + [Entry(text, tracker.pathArr, end)]) && UpTo(nextInfo, nextLine)
  {
    hide Holds, UpTo, Join, InText;
    tracker.lastWasDelim := false;
    tracker.tmpParent := text;
    nextLine := AdvanceLine(doc, prev, end, line);
    UpToGrows(info, line, nextLine);
    nextInfo := Record(info, doc, log, text, tracker.parent, nextLine, Entry(text, tracker.pathArr, end));
  }

  method InitializeJSONLine(doc: string, toks: seq<Token>) returns (info: LineInfo)
    requires FromDecoder(doc, toks)
    ensures InText(doc, Track(START, toks).log)
    ensures Holds(info, doc, Track(START, toks).log)
  {
    info := map[];
    assert InText(doc, []) && Holds(info, doc, []) && UpTo(info, 1);
    assert Track(START, toks[..0]) == TrackRun(START, []);
    assert Ahead(doc, toks, 0, 0) && !Opened(toks, 0);
    hide Holds, UpTo, Track, DelimStep, InText, Ahead, Opened, FromDecoder;
    var tracker := new PathTracker();
    var line, prevInputOffset := 1, 0;
    ghost var log: seq<Entry> := [];
    for i := 0 to |toks|
      invariant tracker.Valid() && fresh(tracker)
      invariant Track(START, toks[..i]) == TrackRun(tracker.State(), log)
      invariant Opened(toks, i) ==> tracker.pathArr != []
      invariant prevInputOffset <= |doc| && line == LineAt(doc, prevInputOffset)
      invariant Ahead(doc, toks, i, prevInputOffset)
      invariant InText(doc, log) && Holds(info, doc, log) && UpTo(info, line)
    {
      NextToken(toks, i, TrackRun(tracker.State(), log));
      NextOffset(doc, toks, i, prevInputOffset);
      match toks[i] {
        case Delimiter(d) =>
          tracker.DelimSetup(d);
        case Text(text, end) =>
          line, info := ReadText(doc, text, end, tracker, prevInputOffset, line, info, log);
          prevInputOffset := end;
          log := log + [Entry(text, tracker.pathArr, end)];
      }
    }
    assert toks[..|toks|] == toks;
  }
}
