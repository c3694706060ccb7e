/** The answer formatter of `useResponseFormatter` (and its verbatim copy inside the
    OpenAI panel): an answer string becomes an ordered list of text and code segments,
    code being whatever the global expression
        /```(?:(\w+)(?: ?([^\n]+))?)?(?:\n)([\s\S]*?)```/g
    matches. The expression's backtracking semantics are written out by hand below. */
module ResponseFormatter {
  import opened Wrappers
  import opened JsString

  datatype Segment = Text(content: string) | Code(language: string, title: string, content: string)

  /** What `exec` returns on success: `index`, `match[0]` and capture groups 1-3
      (`None` for a group that did not participate). */
  datatype FenceMatch = FenceMatch(index: nat, whole: string, tag: Option<string>,
                                   title: Option<string>, body: string)

  /** Three backticks start at `i`. */
  predicate FenceAt(s: string, i: int) {
    0 <= i && i + 3 <= |s| && s[i] == '`' && s[i + 1] == '`' && s[i + 2] == '`'
  }

  /** Index of the first '\n' at or after `from`. */
  function NextNewline(s: string, from: nat): (r: Option<nat>)
    ensures r.Some? ==> from <= r.value < |s| && s[r.value] == '\n'
    decreases |s| - from
  {
    if from >= |s| then None
    else if s[from] == '\n' then Some(from)
    else NextNewline(s, from + 1)
  }

  /** No newline comes before the one `NextNewline` finds. */
  lemma {:induction false} NextNewlineFirst(s: string, from: nat)
    ensures var r := NextNewline(s, from);
      forall i :: from <= i < |s| && (r.None? || i < r.value) ==> s[i] != '\n'
    decreases |s| - from
  {
    if from < |s| && s[from] != '\n' {
      NextNewlineFirst(s, from + 1);
    }
  }

  /** Index of the first "```" starting at or after `from`: the lazy `[\s\S]*?` stops there. */
  function NextFence(s: string, from: nat): (r: Option<nat>)
    ensures r.Some? ==> from <= r.value && FenceAt(s, r.value)
    decreases |s| - from
  {
    if from + 3 > |s| then None
    else if FenceAt(s, from) then Some(from)
    else NextFence(s, from + 1)
  }

  /** No "```" starts before the one `NextFence` finds. */
  lemma {:induction false} NextFenceFirst(s: string, from: nat)
    ensures var r := NextFence(s, from);
      forall i :: from <= i && (r.None? || i < r.value) ==> !FenceAt(s, i)
    decreases |s| - from
  {
    if from + 3 <= |s| && !FenceAt(s, from) {
      NextFenceFirst(s, from + 1);
    }
  }

  /** Length of the longest run of word characters at the start of `s` (greedy `\w+`). */
  function WordRun(s: string): (n: nat)
    ensures n <= |s|
  {
    if s == [] || !IsWordChar(s[0]) then 0 else 1 + WordRun(s[1..])
  }

  /** The run is made of word characters and cannot be extended. */
  lemma {:induction false} WordRunMaximal(s: string)
    ensures forall i :: 0 <= i < WordRun(s) ==> IsWordChar(s[i])
    ensures WordRun(s) == |s| || !IsWordChar(s[WordRun(s)])
  {
    if s != [] && IsWordChar(s[0]) {
      WordRunMaximal(s[1..]);
    }
  }

  /** Groups 1 and 2 for an info line (the text between the opening "```" and the
      newline) that is empty or starts with a word character. The tag is the maximal
      word run; the title is the rest after one optional space, except that a rest of a
      single space is the title itself, since `[^\n]+` must match something. */
  function InfoGroups(info: string): (Option<string>, Option<string>) {
    if info == [] then (None, None)
    else
      var k := WordRun(info);
      var rest := info[k..];
      var title := if rest == [] then None
                   else if rest[0] == ' ' && |rest| >= 2 then Some(rest[1..])
                   else Some(rest);
      (Some(info[..k]), title)
  }

  /** The two groups give back the info line: the tag, then the title, with the one
      space the title dropped in between. */
  lemma InfoGroupsReassemble(info: string)
    requires info == [] || IsWordChar(info[0])
    ensures var g := InfoGroups(info);
      var title := if g.1.Some? then g.1.value else "";
      && (info == [] <==> g.0.None?)
      && (g.0.Some? ==> g.0.value != [])
      && (g.0.Some? ==> info == g.0.value + title || info == g.0.value + " " + title)
      && (g.1.Some? ==> g.1.value != [])
  {
    if info != [] {
      var k := WordRun(info);
      WordRunMaximal(info);
      assert info == info[..k] + info[k..];
      var rest := info[k..];
      if rest != [] && rest[0] == ' ' && |rest| >= 2 {
        assert rest == " " + rest[1..];
      }
    }
  }

  /** Whether, and how, the expression matches when tried at position `p`. */
  function MatchAt(s: string, p: nat): Option<FenceMatch> {
    if !FenceAt(s, p) then None
    else
      match NextNewline(s, p + 3)
      case None => None
      case Some(e) =>
        if e > p + 3 && !IsWordChar(s[p + 3]) then None
        else
          match NextFence(s, e + 1)
          case None => None
          case Some(c) =>
            var groups := InfoGroups(s[p + 3..e]);
            Some(FenceMatch(p, s[p..c + 3], groups.0, groups.1, s[e + 1..c]))
  }

  /** The match the expression's definition describes, stated without search: "```" at
      `p`, an info line up to the first newline `e` that is empty or starts with a word
      character, and the first "```" at `c` after that newline. */
  ghost predicate Opens(s: string, p: nat, e: nat, c: nat) {
    && FenceAt(s, p)
    && p + 3 <= e < |s| && s[e] == '\n'
    && (forall i :: p + 3 <= i < e ==> s[i] != '\n')
    && (e == p + 3 || IsWordChar(s[p + 3]))
    && e + 1 <= c && FenceAt(s, c)
    && (forall i :: e + 1 <= i < c ==> !FenceAt(s, i))
  }

  /** `MatchAt` agrees with the declarative reading in both directions, and a match
      spans "```", the info line, "\n", the body and "```". */
  lemma MatchAtMeans(s: string, p: nat)
    ensures MatchAt(s, p).Some? <==> exists e: nat, c: nat :: Opens(s, p, e, c)
    ensures forall e: nat, c: nat :: Opens(s, p, e, c) ==>
      MatchAt(s, p).Some? && MatchAt(s, p).value.whole == s[p..c + 3]
      && MatchAt(s, p).value.body == s[e + 1..c]
  {
    forall e: nat, c: nat | Opens(s, p, e, c)
      ensures MatchAt(s, p).Some? && MatchAt(s, p).value.whole == s[p..c + 3]
      ensures MatchAt(s, p).value.body == s[e + 1..c]
    {
      NextNewlineFirst(s, p + 3);
      assert NextNewline(s, p + 3) == Some(e);
      NextFenceFirst(s, e + 1);
      assert NextFence(s, e + 1) == Some(c);
    }
    if MatchAt(s, p).Some? {
      var e := NextNewline(s, p + 3).value;
      var c := NextFence(s, e + 1).value;
      NextNewlineFirst(s, p + 3);
      NextFenceFirst(s, e + 1);
      assert Opens(s, p, e, c);
    }
  }

  /** A match at `p` unfolded: the newline `e` ending the info line, the closing
      "```" at `c`, and the groups taken from the text between them. */
  lemma MatchParts(s: string, p: nat) returns (e: nat, c: nat)
    requires MatchAt(s, p).Some?
    ensures FenceAt(s, p) && p + 3 <= e < c && FenceAt(s, c)
    ensures e == p + 3 || IsWordChar(s[p + 3])
    ensures forall i :: e + 1 <= i < c ==> !FenceAt(s, i)
    ensures var g := InfoGroups(s[p + 3..e]);
      MatchAt(s, p) == Some(FenceMatch(p, s[p..c + 3], g.0, g.1, s[e + 1..c]))
  {
    e := NextNewline(s, p + 3).value;
    c := NextFence(s, e + 1).value;
    NextFenceFirst(s, e + 1);
  }

  /** The span from an opening to a closing "```" at least four apart. */
  lemma SpanFences(s: string, p: nat, c: nat)
    requires FenceAt(s, p) && FenceAt(s, c) && p + 4 <= c
    ensures var w := s[p..c + 3]; |w| >= 7 && FenceAt(w, 0) && FenceAt(w, |w| - 3)
  {
    var w := s[p..c + 3];
    assert w[0] == s[p] && w[1] == s[p + 1] && w[2] == s[p + 2];
    assert w[|w| - 3] == s[c] && w[|w| - 2] == s[c + 1] && w[|w| - 1] == s[c + 2];
  }

  /** A stretch of `s` in which no "```" starts holds none as a string of its own. */
  lemma BodyClean(s: string, lo: nat, hi: nat)
    requires lo <= hi <= |s|
    requires forall i :: lo <= i < hi ==> !FenceAt(s, i)
    ensures forall i :: 0 <= i && i + 3 <= hi - lo ==> !FenceAt(s[lo..hi], i)
  {
    forall i | 0 <= i && i + 3 <= hi - lo ensures !FenceAt(s[lo..hi], i) {
      assert !FenceAt(s, lo + i);
    }
  }

  /** The groups of an accepted info line: a tag of word characters, and a title only
      after a tag and never empty. */
  lemma InfoTag(info: string)
    requires info == [] || IsWordChar(info[0])
    ensures var g := InfoGroups(info);
      && (g.0.Some? ==> |g.0.value| >= 1 && forall i :: 0 <= i < |g.0.value| ==> IsWordChar(g.0.value[i]))
      && (g.1.Some? ==> g.0.Some? && g.1.value != "")
  {
    WordRunMaximal(info);
  }

  /** Facts about any successful match: where it lies, that it is at least seven
      characters long, that its body holds no "```" and its tag only word characters. */
  lemma MatchShape(s: string, p: nat)
    requires MatchAt(s, p).Some?
    ensures var m := MatchAt(s, p).value;
      && m.index == p && p + |m.whole| <= |s| && |m.whole| >= 7
      && m.whole == s[p..p + |m.whole|]
      && FenceAt(m.whole, 0) && FenceAt(m.whole, |m.whole| - 3)
      && (forall i :: 0 <= i && i + 3 <= |m.body| ==> !FenceAt(m.body, i))
      && (m.tag.Some? ==> |m.tag.value| >= 1 && forall i :: 0 <= i < |m.tag.value| ==> IsWordChar(m.tag.value[i]))
      && (m.title.Some? ==> m.tag.Some? && m.title.value != "")
  {
    var e, c := MatchParts(s, p);
    SpanFences(s, p, c);
    BodyClean(s, e + 1, c);
    InfoTag(s[p + 3..e]);
  }

  /** `regex.exec(s)` with `lastIndex` = `from`: the match at the first position at or
      after `from` where one exists (see `ExecFirst`). */
  function Exec(s: string, from: nat): (r: Option<FenceMatch>)
    ensures r.Some? ==> var m := r.value;
      && from <= m.index && m.index + |m.whole| <= |s| && |m.whole| >= 7
      && m.whole == s[m.index..m.index + |m.whole|]
    decreases |s| - from
  {
    if from + 7 > |s| then None
    else if MatchAt(s, from).Some? then
      MatchShape(s, from);
      MatchAt(s, from)
    else Exec(s, from + 1)
  }

  /** `Exec` returns a match of the expression, and no match starts between `from` and
      it (or anywhere from `from` on, when it returns nothing). */
  lemma {:induction false} ExecFirst(s: string, from: nat)
    ensures var r := Exec(s, from);
      && (r.Some? ==> MatchAt(s, r.value.index) == r)
      && (forall p :: from <= p && (r.None? || p < r.value.index) ==> MatchAt(s, p).None?)
    decreases |s| - from
  {
    if from + 7 > |s| {
      forall p | from <= p && MatchAt(s, p).Some? ensures false {
        MatchShape(s, p);
      }
    } else if MatchAt(s, from).None? {
      ExecFirst(s, from + 1);
    }
  }

  /** Index just past a match: the `lastIndex` the loop continues from. */
  function End(m: FenceMatch): nat {
    m.index + |m.whole|
  }

  /** `ms` are non-empty spans of `s` in order, none starting before `from`. */
  ghost predicate Ordered(s: string, from: nat, ms: seq<FenceMatch>)
    decreases |ms|
  {
    ms == [] ||
      (&& from <= ms[0].index && End(ms[0]) <= |s| && |ms[0].whole| >= 1
       && ms[0].whole == s[ms[0].index..End(ms[0])]
       && Ordered(s, End(ms[0]), ms[1..]))
  }

  /** The matches successive `exec` calls return, starting with `lastIndex` = `from`. */
  function Matches(s: string, from: nat): (ms: seq<FenceMatch>)
    requires from <= |s|
    ensures Ordered(s, from, ms)
    decreases |s| - from
  {
    match Exec(s, from)
    case None => []
    case Some(m) =>
      var ms := [m] + Matches(s, End(m));
      assert ms[1..] == Matches(s, End(m));
      ms
  }

  /** A stretch of the answer: plain text, or the raw text of one match. */
  datatype Piece = Plain(text: string) | Fenced(m: FenceMatch)

  /** The answer from `from` on, cut at the given matches: the text before each match
      (when there is any), the match, and after the last match the tail (when non-empty). */
  function Cut(s: string, from: nat, ms: seq<FenceMatch>): seq<Piece>
    requires from <= |s| && Ordered(s, from, ms)
    decreases |ms|
  {
    if ms == [] then (if from < |s| then [Plain(s[from..])] else [])
    else
      var m := ms[0];
      (if m.index > from then [Plain(s[from..m.index])] else []) + [Fenced(m)] + Cut(s, End(m), ms[1..])
  }

  /** The answer from `from` on, cut the way the formatting loop cuts it. */
  function Pieces(s: string, from: nat): seq<Piece>
    requires from <= |s|
  {
    Cut(s, from, Matches(s, from))
  }

  /** The language alias table; tags not in it pass through. */
  const Aliases: map<string, string> := map[
    "js" := "javascript", "ts" := "typescript", "py" := "python", "rb" := "ruby",
    "kt" := "kotlin", "cpp" := "cpp", "c++" := "cpp", "cs" := "csharp", "java" := "java",
    "go" := "go", "php" := "php", "sh" := "bash", "bash" := "bash", "shell" := "bash",
    "html" := "html", "css" := "css", "json" := "json", "xml" := "xml", "yaml" := "yaml",
    "yml" := "yaml", "md" := "markdown", "markdown" := "markdown", "sql" := "sql"]

  /** The language of a block: "javascript" without a tag, otherwise the lower-cased
      tag sent through the alias table (every alias is non-empty, so `||` keeps it).
      The source also looks "javascript" up, which changes nothing: it is not a key
      (`DefaultNotAliased`). */
  function Language(tag: Option<string>): string {
    if tag.None? || tag.value == "" then "javascript"
    else
      var l := ToLower(tag.value);
      if l in Aliases then Aliases[l] else l
  }

  function SegmentOf(p: Piece): Segment {
    match p
    case Plain(t) => Text(t)
    case Fenced(m) => Code(Language(m.tag), if m.title.Some? then m.title.value else "", m.body)
  }

  function Segments(ps: seq<Piece>): (r: seq<Segment>)
    ensures |r| == |ps|
  {
    if ps == [] then [] else [SegmentOf(ps[0])] + Segments(ps[1..])
  }

  /** Each piece becomes the segment at the same position. */
  lemma {:induction false} SegmentsAt(ps: seq<Piece>)
    ensures forall i :: 0 <= i < |ps| ==> Segments(ps)[i] == SegmentOf(ps[i])
  {
    if ps != [] {
      SegmentsAt(ps[1..]);
    }
  }

  lemma {:induction false} SegmentsAppend(a: seq<Piece>, b: seq<Piece>)
    ensures Segments(a + b) == Segments(a) + Segments(b)
  {
    if a != [] {
      assert (a + b)[1..] == a[1..] + b;
      SegmentsAppend(a[1..], b);
    } else {
      assert a + b == b;
    }
  }

  /** The segment list of an answer. */
  function Formatted(s: string): seq<Segment> {
    Segments(Pieces(s, 0))
  }

  /** The text of the answer a piece stands for. */
  function Raw(p: Piece): string {
    match p
    case Plain(t) => t
    case Fenced(m) => m.whole
  }

  function Flatten(ps: seq<Piece>): string {
    if ps == [] then "" else Raw(ps[0]) + Flatten(ps[1..])
  }

  lemma {:induction false} FlattenAppend(a: seq<Piece>, b: seq<Piece>)
    ensures Flatten(a + b) == Flatten(a) + Flatten(b)
  {
    if a != [] {
      assert (a + b)[1..] == a[1..] + b;
      FlattenAppend(a[1..], b);
    } else {
      assert a + b == b;
    }
  }

  /** One turn of the `exec` loop: a match found from `from` contributes the text before
      it (when there is any) and itself, and cutting continues just past it. */
  lemma PiecesStep(s: string, from: nat)
    requires from <= |s| && Exec(s, from).Some?
    ensures var m := Exec(s, from).value;
      && from <= m.index && End(m) <= |s| && m.whole == s[m.index..End(m)]
      && Pieces(s, from) ==
         (if m.index > from then [Plain(s[from..m.index])] else []) + [Fenced(m)] + Pieces(s, End(m))
  {
    var ms := Matches(s, from);
    assert ms[1..] == Matches(s, End(ms[0]));
  }

  /** The loop ends once `exec` fails: what is left is at most one tail piece. */
  lemma PiecesDone(s: string, from: nat)
    requires from <= |s| && Exec(s, from).None?
    ensures Pieces(s, from) == if from < |s| then [Plain(s[from..])] else []
  {
  }

  /** One turn of the `exec` loop keeps `parts` followed by the segments of what is
      left equal to the whole answer's segments. */
  lemma FormatStep(s: string, from: nat, parts: seq<Segment>)
    requires from <= |s| && Exec(s, from).Some?
    ensures var m := Exec(s, from).value;
      var lead := if m.index > from then [Text(s[from..m.index])] else [];
      && from < End(m) <= |s|
      && parts + Segments(Pieces(s, from)) ==
         (parts + lead + [SegmentOf(Fenced(m))]) + Segments(Pieces(s, End(m)))
  {
    var m := Exec(s, from).value;
    PiecesStep(s, from);
    var lead := if m.index > from then [Plain(s[from..m.index])] else [];
    var rest := Segments(Pieces(s, End(m)));
    SegmentsAppend(lead + [Fenced(m)], Pieces(s, End(m)));
    SegmentsAppend(lead, [Fenced(m)]);
    var leadText := Segments(lead);
    assert leadText == if m.index > from then [Text(s[from..m.index])] else [];
    assert Segments(Pieces(s, from)) == leadText + [SegmentOf(Fenced(m))] + rest;
    assert parts + (leadText + [SegmentOf(Fenced(m))] + rest)
      == (parts + leadText + [SegmentOf(Fenced(m))]) + rest;
  }

  /** After the last match, what is left is the tail as one text segment, if any. */
  lemma FormatDone(s: string, from: nat)
    requires from <= |s| && Exec(s, from).None?
    ensures Segments(Pieces(s, from)) == if from < |s| then [Text(s[from..])] else []
  {
    PiecesDone(s, from);
  }

  /** The effect hook: `parts` after the `exec` loop and the tail check. */
  method Format(response: string) returns (parts: seq<Segment>)
    ensures parts == Formatted(response)
  {
    if response == "" {
      PiecesDone(response, 0);
      return [];
    }
    parts := [];
    var lastIndex := 0;
    var m := Exec(response, 0);
    ghost var left := Segments(Pieces(response, 0));
    while m.Some?
      invariant lastIndex <= |response|
      invariant m == Exec(response, lastIndex)
      invariant left == Segments(Pieces(response, lastIndex))
      invariant Formatted(response) == parts + left
      decreases |response| - lastIndex
    {
      var found := m.value;
      FormatStep(response, lastIndex, parts);
      ghost var lead := if found.index > lastIndex then [Text(response[lastIndex..found.index])] else [];
      ghost var next := parts + lead + [SegmentOf(Fenced(found))];
      assert Formatted(response) == next + Segments(Pieces(response, End(found)));
      if found.index > lastIndex {
        parts := parts + [Text(response[lastIndex..found.index])];
      }
      parts := parts + [SegmentOf(Fenced(found))];
      assert parts == next;
      lastIndex := End(found);
      left := Segments(Pieces(response, lastIndex));
      m := Exec(response, lastIndex);
    }
    FormatDone(response, lastIndex);
    if lastIndex < |response| {
      parts := parts + [Text(response[lastIndex..])];
    }
  }

  lemma SliceSplit(s: string, a: nat, b: nat, c: nat)
    requires a <= b <= c <= |s|
    ensures s[a..c] == s[a..b] + s[b..c]
  {
  }

  /** Cutting at ordered spans drops, duplicates and reorders nothing. */
  lemma {:induction false} CutReassembles(s: string, from: nat, ms: seq<FenceMatch>)
    requires from <= |s| && Ordered(s, from, ms)
    ensures Flatten(Cut(s, from, ms)) == s[from..]
    decreases |ms|
  {
    if ms == [] {
      if from < |s| {
        assert Flatten([Plain(s[from..])]) == s[from..] + Flatten([]);
      }
    } else {
      var m := ms[0];
      var rest := Cut(s, End(m), ms[1..]);
      CutReassembles(s, End(m), ms[1..]);
      var lead := if m.index > from then [Plain(s[from..m.index])] else [];
      assert Cut(s, from, ms) == lead + [Fenced(m)] + rest;
      FlattenAppend(lead + [Fenced(m)], rest);
      FlattenAppend(lead, [Fenced(m)]);
      assert Flatten(lead) == s[from..m.index] by {
        if m.index > from {
          assert Flatten(lead) == s[from..m.index] + Flatten([]);
        }
      }
      assert Flatten([Fenced(m)]) == s[m.index..End(m)] by {
        assert Flatten([Fenced(m)]) == m.whole + Flatten([]);
      }
      SliceSplit(s, from, m.index, End(m));
      SliceSplit(s, from, End(m), |s|);
      assert s[from..] == s[from..|s|];
      assert s[End(m)..] == s[End(m)..|s|];
    }
  }

  /** Text segments interleaved with the raw match texts reproduce the answer. */
  lemma Reassembles(s: string)
    ensures Flatten(Pieces(s, 0)) == s
  {
    CutReassembles(s, 0, Matches(s, 0));
  }

  /** Plain pieces are never empty, and every plain piece but the first follows a match. */
  predicate WellFormed(ps: seq<Piece>) {
    && (forall i :: 0 <= i < |ps| && ps[i].Plain? ==> ps[i].text != "")
    && (forall i :: 0 < i < |ps| && ps[i].Plain? ==> ps[i - 1].Fenced?)
  }

  lemma WellFormedPrepend(lead: seq<Piece>, m: FenceMatch, rest: seq<Piece>)
    requires lead == [] || (|lead| == 1 && lead[0].Plain? && lead[0].text != "")
    requires WellFormed(rest)
    ensures WellFormed(lead + [Fenced(m)] + rest)
  {
    var ps := lead + [Fenced(m)] + rest;
    forall i | 0 <= i < |ps| && ps[i].Plain? ensures ps[i].text != "" {
      if i > |lead| {
        assert ps[i] == rest[i - |lead| - 1];
      }
    }
    forall i | 0 < i < |ps| && ps[i].Plain? ensures ps[i - 1].Fenced? {
      if i > |lead| + 1 {
        assert ps[i] == rest[i - |lead| - 1];
        assert ps[i - 1] == rest[i - |lead| - 2];
      }
    }
  }

  lemma {:induction false} CutWellFormed(s: string, from: nat, ms: seq<FenceMatch>)
    requires from <= |s| && Ordered(s, from, ms)
    ensures WellFormed(Cut(s, from, ms))
    decreases |ms|
  {
    if ms != [] {
      var m := ms[0];
      CutWellFormed(s, End(m), ms[1..]);
      var lead := if m.index > from then [Plain(s[from..m.index])] else [];
      WellFormedPrepend(lead, m, Cut(s, End(m), ms[1..]));
    }
  }

  /** No text segment is empty and no two text segments are adjacent. */
  lemma TextSegmentsSeparated(s: string)
    ensures var r := Formatted(s);
      && (forall i :: 0 <= i < |r| && r[i].Text? ==> r[i].content != "")
      && (forall i :: 0 <= i < |r| - 1 ==> !(r[i].Text? && r[i + 1].Text?))
  {
    var ps := Pieces(s, 0);
    CutWellFormed(s, 0, Matches(s, 0));
    SegmentsAt(ps);
    var r := Formatted(s);
    assert r == Segments(ps);
    forall i | 0 <= i < |r| && r[i].Text? ensures r[i].content != "" {
      assert r[i] == SegmentOf(ps[i]);
    }
    forall i | 0 <= i < |r| - 1 ensures !(r[i].Text? && r[i + 1].Text?) {
      assert r[i] == SegmentOf(ps[i]);
      assert r[i + 1] == SegmentOf(ps[i + 1]);
    }
  }

  /** Every match piece is one of the spans cut at. */
  lemma {:induction false} CutFencedFrom(s: string, from: nat, ms: seq<FenceMatch>)
    requires from <= |s| && Ordered(s, from, ms)
    ensures forall i :: 0 <= i < |Cut(s, from, ms)| && Cut(s, from, ms)[i].Fenced? ==>
      Cut(s, from, ms)[i].m in ms
    decreases |ms|
  {
    if ms != [] {
      var m := ms[0];
      CutFencedFrom(s, End(m), ms[1..]);
      var lead := if m.index > from then [Plain(s[from..m.index])] else [];
      var rest := Cut(s, End(m), ms[1..]);
      var ps := lead + [Fenced(m)] + rest;
      assert Cut(s, from, ms) == ps;
      forall i | 0 <= i < |ps| && ps[i].Fenced? ensures ps[i].m in ms {
        if i > |lead| {
          assert ps[i] == Cut(s, End(m), ms[1..])[i - |lead| - 1];
        }
      }
    }
  }

  /** Every match `exec` returns is a match of the expression at its index. */
  lemma {:induction false} MatchesAreMatches(s: string, from: nat)
    requires from <= |s|
    ensures forall m :: m in Matches(s, from) ==> MatchAt(s, m.index) == Some(m)
    decreases |s| - from
  {
    match Exec(s, from)
    case None =>
    case Some(m) =>
      ExecFirst(s, from);
      MatchesAreMatches(s, End(m));
  }

  /** No "```" starts anywhere in `t`. */
  predicate FenceFree(t: string) {
    forall i :: 0 <= i && i + 3 <= |t| ==> !FenceAt(t, i)
  }

  lemma FenceFreeNotContains(t: string)
    requires FenceFree(t)
    ensures !Contains(t, "```")
  {
    var k := IndexOfFrom(t, "```", 0);
    if k != -1 {
      assert t[k..k + 3] == "```";
      assert FenceAt(t, k);
    }
  }

  /** Code content is the shortest run up to the next "```", so it never contains one. */
  lemma CodeSegmentsClean(s: string)
    ensures forall i :: 0 <= i < |Formatted(s)| && Formatted(s)[i].Code? ==>
      !Contains(Formatted(s)[i].content, "```")
  {
    var ps := Pieces(s, 0);
    var r := Formatted(s);
    CutFencedFrom(s, 0, Matches(s, 0));
    MatchesAreMatches(s, 0);
    SegmentsAt(ps);
    assert r == Segments(ps);
    forall i | 0 <= i < |r| && r[i].Code? ensures !Contains(r[i].content, "```") {
      assert r[i] == SegmentOf(ps[i]);
      var m := ps[i].m;
      MatchShape(s, m.index);
      FenceFreeNotContains(m.body);
    }
  }

  /** Without any successful match the answer is one text segment (or none when empty). */
  lemma NoMatchIsPlainText(s: string)
    requires forall p :: MatchAt(s, p).None?
    ensures Formatted(s) == if s == "" then [] else [Text(s)]
  {
    ExecFirst(s, 0);
    PiecesDone(s, 0);
  }

  /** If no two "```" are far enough apart to enclose a newline, no match is possible
      and the answer stays one text segment. */
  lemma UnterminatedStaysText(s: string)
    requires forall i, j :: FenceAt(s, i) && FenceAt(s, j) && i < j ==> j < i + 4
    ensures Formatted(s) == if s == "" then [] else [Text(s)]
  {
    forall p: nat ensures MatchAt(s, p).None? {
    }
    NoMatchIsPlainText(s);
  }

  /** An opener whose info line ends but which has no "```" anywhere after that newline
      starts no code piece, whatever the rest of the answer holds. */
  lemma OpenerNeverClosed(s: string, p: nat)
    requires FenceAt(s, p) && NextNewline(s, p + 3).Some?
    requires NextFence(s, NextNewline(s, p + 3).value + 1).None?
    ensures forall i :: 0 <= i < |Pieces(s, 0)| && Pieces(s, 0)[i].Fenced? ==>
      Pieces(s, 0)[i].m.index != p
  {
    assert MatchAt(s, p).None?;
    CutFencedFrom(s, 0, Matches(s, 0));
    MatchesAreMatches(s, 0);
  }

  /** A space right after the opening "```" makes a non-empty info line that does not
      start with a word character, so no match starts there. */
  lemma SpaceBeforeTagNoMatch(s: string, p: nat)
    requires p + 3 < |s| && s[p + 3] == ' '
    ensures MatchAt(s, p).None?
  {
    if FenceAt(s, p) && NextNewline(s, p + 3).Some? {
      assert NextNewline(s, p + 3).value != p + 3;
    }
  }

  /** Without a newline there is no info line to end, so an answer without one stays
      text, however many "```" it holds. */
  lemma NoNewlineStaysText(s: string)
    requires forall i :: 0 <= i < |s| ==> s[i] != '\n'
    ensures Formatted(s) == if s == "" then [] else [Text(s)]
  {
    forall p: nat ensures MatchAt(s, p).None? {
      if FenceAt(s, p) {
        assert NextNewline(s, p + 3).None?;
      }
    }
    NoMatchIsPlainText(s);
  }

  lemma InlineFencesStayText()
    ensures Formatted("```x```") == [Text("```x```")]
  {
    var s := "```x```";
    assert forall i :: 0 <= i < |s| ==> s[i] != '\n';
    NoNewlineStaysText(s);
  }

  /** "``` js" is not an info line the expression accepts, and the closing "```" has no
      newline after it, so the whole answer is text. */
  lemma SpacedTagStaysText()
    ensures Formatted("``` js\ncode\n```") == [Text("``` js\ncode\n```")]
  {
    var s := "``` js\ncode\n```";
    forall p: nat ensures MatchAt(s, p).None? {
      if p == 0 {
        SpaceBeforeTagNoMatch(s, 0);
      } else if p == 12 {
        assert NextNewline(s, 15).None?;
      } else if p < 12 {
        assert s[4..12] == "js\ncode\n";
        assert !FenceAt(s, p);
      }
    }
    NoMatchIsPlainText(s);
  }

  /** An opener that is never closed: one text segment equal to the answer. */
  lemma UnclosedStaysText()
    ensures Formatted("```py\nprint(1)") == [Text("```py\nprint(1)")]
  {
    var s := "```py\nprint(1)";
    assert s[3..] == "py\nprint(1)";
    assert forall i :: FenceAt(s, i) ==> i == 0;
    UnterminatedStaysText(s);
  }

  /** A matched tag is made of word characters, so the table's "c++" key is never
      looked up: a "c++" info line has the tag "c" and the title "++". */
  lemma CPlusPlusUnreachable(s: string, p: nat)
    requires MatchAt(s, p).Some? && MatchAt(s, p).value.tag.Some?
    ensures ToLower(MatchAt(s, p).value.tag.value) != "c++"
  {
    var tag := MatchAt(s, p).value.tag.value;
    MatchShape(s, p);
    ToLowerSpec(tag);
    if |tag| == 3 {
      assert LowerChar(tag[1]) != '+';
    }
  }

  lemma CPlusPlusInfoLine()
    ensures InfoGroups("c++") == (Some("c"), Some("++"))
  {
    assert WordRun("c++") == 1 by {
      assert "c++"[1..] == "++" && "++"[0] == '+';
    }
    assert "c++"[..1] == "c" && "c++"[1..] == "++";
  }

  /** The body keeps the newline before the closing fence, and an empty body is a
      block in the default language. */
  lemma BodyKeepsNewline()
    ensures MatchAt("```js\ncode()\n```", 0) == Some(FenceMatch(0, "```js\ncode()\n```", Some("js"), None, "code()\n"))
    ensures MatchAt("```\n```", 0) == Some(FenceMatch(0, "```\n```", None, None, ""))
  {
    var s := "```js\ncode()\n```";
    assert FenceAt(s, 0) && IsWordChar(s[3]);
    assert NextNewline(s, 3) == Some(5);
    assert NextFence(s, 6) == Some(13);
    assert s[3..5] == "js";
    assert WordRun("js") == 2 by {
      assert "js"[1..] == "s" && "s"[1..] == "";
    }
    assert "js"[..2] == "js" && "js"[2..] == "";
    assert InfoGroups("js") == (Some("js"), None);
    assert s[0..16] == s && s[6..13] == "code()\n";
    var t := "```\n```";
    assert FenceAt(t, 0);
    assert NextNewline(t, 3) == Some(3);
    assert NextFence(t, 4) == Some(4);
    assert t[3..3] == "" && t[0..7] == t && t[4..4] == "";
  }

  /** A falsy (empty) answer gives no segments. */
  lemma EmptyAnswer()
    ensures Formatted("") == []
  {
    PiecesDone("", 0);
  }

  /** The default language is not a key of the table, so looking it up, as the source
      does, leaves it unchanged. */
  lemma DefaultNotAliased()
    ensures "javascript" !in Aliases
  {
  }

  /** A tag is lower-cased before the table is consulted: "JS" is "javascript". */
  lemma UpperCaseTagAliased()
    ensures Language(Some("JS")) == "javascript"
  {
    assert ToLower("JS") == "js";
  }

  /** "yml" and "yaml" both name "yaml"; a tag outside the table passes through. */
  lemma TableExamples()
    ensures Language(Some("yml")) == "yaml"
    ensures Language(Some("zig")) == "zig"
  {
    assert ToLower("yml") == "yml";
    assert ToLower("zig") == "zig";
    assert "zig" !in Aliases;
  }
}
