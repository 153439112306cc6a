/** The text handling of the job analysis page: reading `Label: value`
    lines, classifying requirement lines into matched and missing skills,
    splitting the analysis text into sections with a line-driven mode
    machine, and listing the responsibilities. The keyword regular
    expressions of the section parser are abstract predicates. */
module JobAnalysis {

  import opened Wrappers
  import opened Text

  // ---- generic sequence helpers ----

  /** `xs.filter(p)` */
  function Filter<T(!new)>(xs: seq<T>, p: T -> bool): (r: seq<T>)
    ensures |r| <= |xs|
    ensures forall x :: x in r <==> x in xs && p(x)
    decreases |xs|
  {
    if xs == [] then []
    else if p(xs[0]) then [xs[0]] + Filter(xs[1..], p)
    else Filter(xs[1..], p)
  }

  /** Filtering keeps the order: it distributes over concatenation. */
  lemma {:induction false} FilterAppend<T(!new)>(xs: seq<T>, ys: seq<T>, p: T -> bool)
    ensures Filter(xs + ys, p) == Filter(xs, p) + Filter(ys, p)
    decreases |xs|
  {
    if xs == [] {
      assert xs + ys == ys;
    } else {
      assert (xs + ys)[1..] == xs[1..] + ys;
      FilterAppend(xs[1..], ys, p);
    }
  }

  /** `xs.map(f)` */
  function Map<A, B>(xs: seq<A>, f: A -> B): (r: seq<B>)
    ensures |r| == |xs|
    ensures forall i :: 0 <= i < |xs| ==> r[i] == f(xs[i])
  {
    seq(|xs|, i requires 0 <= i < |xs| => f(xs[i]))
  }

  /** Mapping then filtering keeps exactly the images that pass. */
  lemma MapFilterExact<A(!new), B(!new)>(xs: seq<A>, f: A -> B, p: B -> bool, y: B)
    ensures y in Filter(Map(xs, f), p) <==> p(y) && exists x :: x in xs && f(x) == y
  {
    var ys := Map(xs, f);
    if y in ys {
      var i :| 0 <= i < |ys| && ys[i] == y;
      assert xs[i] in xs;
    }
    if x :| x in xs && f(x) == y {
      var i :| 0 <= i < |xs| && xs[i] == x;
      assert ys[i] == y;
    }
  }

  // ---- extractValue ----

  const Colon := ':'
  const Asterisks: set<char> := {'*'}

  /** `extractValue`: everything after the first colon (later colons
      kept), with every `*` removed, trimmed; "" when there is no colon. */
  function ExtractValue(line: string): (r: string)
    ensures forall i :: 0 <= i < |r| ==> r[i] != '*'
    ensures r == [] || (!IsSpace(r[0]) && !IsSpace(r[|r| - 1]))
  {
    var parts := Split(line, Colon);
    if |parts| < 2 then "" else Trim(RemoveChars(Join(parts[1..], Colon), Asterisks))
  }

  /** A line without a colon has no value. */
  lemma ExtractValueNoColon(line: string)
    requires Colon !in line
    ensures ExtractValue(line) == ""
  {
    SplitFirst(line, Colon, |line|);
  }

  /** With the first colon at `i`, the value is the rest of the line after
      it, unstarred and trimmed. */
  lemma ExtractValueAfterFirstColon(line: string, i: nat)
    requires i < |line| && line[i] == Colon && Colon !in line[..i]
    ensures ExtractValue(line) == Trim(RemoveChars(line[i + 1..], Asterisks))
  {
    SplitFirst(line, Colon, i);
    JoinSplit(line[i + 1..], Colon);
  }

  // ---- stripDecorations ----

  /** `s` without its leading run of `c`. */
  function DropLeading(s: string, c: char): (r: string)
    ensures |r| <= |s| && r == s[|s| - |r|..]
    ensures r == [] || r[0] != c
    decreases |s|
  {
    if s != [] && s[0] == c then DropLeading(s[1..], c) else s
  }

  /** `s.replace(/^#+\s*\/g, "")`: a leading run of `#` and the white space
      after it are removed; a line not starting with `#` is kept. */
  function DropHeading(s: string): (r: string)
    ensures s == [] || s[0] != '#' ==> r == s
  {
    if s != [] && s[0] == '#' then TrimStart(DropLeading(s, '#')) else s
  }

  /** `stripDecorations`: bold markers, a Markdown heading prefix and the
      emoji of the class `emoji` removed, then trimmed; null or undefined
      gives "". */
  function StripDecorations(s: Option<string>, emoji: set<char>): (r: string)
    ensures s.None? ==> r == ""
    ensures forall i :: 0 <= i < |r| ==> r[i] !in emoji
    ensures r == [] || (!IsSpace(r[0]) && !IsSpace(r[|r| - 1]))
  {
    match s
    case None => ""
    case Some(t) =>
      var plain := RemoveChars(DropHeading(ReplaceAll(t, "**", "")), emoji);
      TrimAvoids(plain, emoji);
      Trim(plain)
  }

  // ---- renderRequirementList ----

  predicate NotBlank(l: string) {
    Trim(l) != ""
  }

  /** A line reporting a missing skill. */
  predicate IsMissing(l: string) {
    Contains(l, "(Eksik)") || Contains(l, "❌") || Contains(l, "X ")
  }

  /** A line reporting a matched skill. */
  predicate IsMatched(l: string) {
    Contains(l, "✅") || Contains(l, "(Mevcut)") || Contains(l, "✓")
  }

  /** The non-blank lines of the requirements text. */
  function RequirementLines(requirements: string): (r: seq<string>)
    ensures forall l :: l in r ==> NotBlank(l)
  {
    Filter(Split(requirements, '\n'), NotBlank)
  }

  function MissingLines(requirements: string): (r: seq<string>)
    ensures forall l :: l in r <==> l in RequirementLines(requirements) && IsMissing(l)
  {
    Filter(RequirementLines(requirements), IsMissing)
  }

  function MatchedLines(requirements: string): (r: seq<string>)
    ensures forall l :: l in r <==> l in RequirementLines(requirements) && IsMatched(l)
  {
    Filter(RequirementLines(requirements), IsMatched)
  }

  /** Both lists keep the document order: the classification of two texts
      joined at a line break is the two classifications joined. */
  lemma ClassificationInOrder(a: string, b: string)
    requires '\n' !in a
    ensures MissingLines(a + "\n" + b) == MissingLines(a) + MissingLines(b)
    ensures MatchedLines(a + "\n" + b) == MatchedLines(a) + MatchedLines(b)
  {
    SplitAtBreak(a, b);
    FilterAppend(Split(a, '\n'), Split(b, '\n'), NotBlank);
    FilterAppend(RequirementLines(a), RequirementLines(b), IsMissing);
    FilterAppend(RequirementLines(a), RequirementLines(b), IsMatched);
  }

  /** Splitting at the line break of two texts, the first without one,
      gives the two splits joined. */
  lemma {:induction false} SplitAtBreak(a: string, b: string)
    requires '\n' !in a
    ensures Split(a + "\n" + b, '\n') == Split(a, '\n') + Split(b, '\n')
  {
    var s := a + "\n" + b;
    assert s[..|a|] == a && s[|a|] == '\n';
    SplitFirst(s, '\n', |a|);
    SplitFirst(a, '\n', |a|);
    assert a[..|a|] == a;
    assert Split(a, '\n') == [a];
    assert s[|a| + 1..] == b;
    assert Split(s, '\n') == [Split(s, '\n')[0]] + Split(s, '\n')[1..];
  }

  /** A line can be both missing and matched: it then shows in both lists. */
  lemma LineInBothLists()
    ensures IsMissing("X React ✓") && IsMatched("X React ✓")
  {
    assert StartsWith("X React ✓", "X ");
    var tail := "X React ✓"[8..];
    assert tail == "✓" && StartsWith(tail, "✓");
    ContainsSuffix("X React ✓", 8, "✓");
  }

  lemma {:induction false} ContainsSuffix(s: string, k: nat, sub: string)
    requires k <= |s| && StartsWith(s[k..], sub)
    ensures Contains(s, sub)
    decreases k
  {
    if k > 0 {
      assert s[1..][k - 1..] == s[k..];
      ContainsSuffix(s[1..], k - 1, sub);
    }
  }

  /** The status tags `clean` removes wherever they occur. */
  const Tags: seq<string> := ["(Eksik)", "(Mevcut)", "(Var)"]

  /** The bullet markers `clean` removes at the start of a line only. */
  const Markers: seq<string> := ["- ", "X ", "✓", "✅"]

  /** The first alternative of `alts` that `s` starts with, if any. */
  function LeadingAlt(s: string, alts: seq<string>): (r: Option<string>)
    ensures r.Some? ==> r.value in alts && StartsWith(s, r.value)
    ensures r.None? ==> forall a :: a in alts ==> !StartsWith(s, a)
    decreases |alts|
  {
    if alts == [] then None
    else if StartsWith(s, alts[0]) then Some(alts[0])
    else LeadingAlt(s, alts[1..])
  }

  /** The global scan for the tags: every occurrence found left to right is
      removed; the scan resumes after it. */
  function RemoveTags(s: string): (r: string)
    ensures |r| <= |s|
    decreases |s|
  {
    if s == [] then []
    else match LeadingAlt(s, Tags)
      case Some(tag) => RemoveTags(s[|tag|..])
      case None => [s[0]] + RemoveTags(s[1..])
  }

  /** `clean`: at the start a tag or a marker is removed; past the start
      only tags are (the markers are anchored); then bold markers go and
      the result is trimmed. */
  function Clean(t: string): (r: string)
    ensures r == [] || (!IsSpace(r[0]) && !IsSpace(r[|r| - 1]))
    ensures !Contains(r, "**")
  {
    var first := match LeadingAlt(t, Tags) {
      case Some(_) => RemoveTags(t)
      case None =>
        match LeadingAlt(t, Markers) {
          case Some(m) => RemoveTags(t[|m|..])
          case None => RemoveTags(t)
        }
    };
    var plain := ReplaceAll(first, "**", "");
    ReplaceAllBold(first);
    TrimNoBold(plain);
    NoBoldContains(Trim(plain));
    Trim(plain)
  }

  /** No two adjacent asterisks. */
  predicate NoBold(s: string) {
    forall i :: 0 <= i < |s| - 1 ==> !(s[i] == '*' && s[i + 1] == '*')
  }

  /** Removing every "**" left to right leaves no "**" behind, and a text
      that does not start with "**" keeps its first character. */
  lemma {:induction false} ReplaceAllBold(s: string)
    ensures NoBold(ReplaceAll(s, "**", ""))
    ensures s != [] && !StartsWith(s, "**") ==>
      ReplaceAll(s, "**", "") != [] && ReplaceAll(s, "**", "")[0] == s[0]
    decreases |s|
  {
    if |s| >= 2 {
      ReplaceAllBold(s[1..]);
      ReplaceAllBold(s[2..]);
      if s[..2] != "**" {
        var rest := ReplaceAll(s[1..], "**", "");
        assert ReplaceAll(s, "**", "") == [s[0]] + rest;
        if s[0] == '*' {
          assert s[1] != '*';
          assert !StartsWith(s[1..], "**");
        }
      }
    }
  }

  lemma TrimNoBold(s: string)
    requires NoBold(s)
    ensures NoBold(Trim(s))
  {
    var r := Trim(s);
    var a := |s| - |TrimStart(s)|;
    forall i | 0 <= i < |r| - 1
      ensures !(r[i] == '*' && r[i + 1] == '*')
    {
      assert r[i] == s[a + i] && r[i + 1] == s[a + i + 1];
    }
  }

  lemma {:induction false} NoBoldContains(s: string)
    requires NoBold(s)
    ensures !Contains(s, "**")
    decreases |s|
  {
    if s != [] {
      assert !StartsWith(s, "**") by {
        if |s| >= 2 { assert !(s[0] == '*' && s[1] == '*'); }
      }
      NoBoldContains(s[1..]);
    }
  }

  /** Text free of the tag openings is kept by the tag scan. */
  lemma {:induction false} RemoveTagsNoParen(s: string)
    requires '(' !in s
    ensures RemoveTags(s) == s
    decreases |s|
  {
    if s != [] {
      assert s[0] != '(';
      LeadingAltOtherStart(s, Tags);
      RemoveTagsNoParen(s[1..]);
      assert s == [s[0]] + s[1..];
    }
  }

  /** A tag at the end of text without tag openings is removed and the
      text kept. */
  lemma {:induction false} RemoveTagsTrailingTag(x: string, tag: string)
    requires '(' !in x && tag in Tags
    ensures RemoveTags(x + tag) == x
    decreases |x|
  {
    if x == [] {
      assert x + tag == tag;
      LeadingTag(tag);
    } else {
      var t := x + tag;
      assert t[0] == x[0] && t[1..] == x[1..] + tag;
      assert x[0] != '(' by { assert x[0] in x; }
      RemoveTagsPlainHead(t);
      RemoveTagsTrailingTag(x[1..], tag);
      assert x == [x[0]] + x[1..];
    }
  }

  /** A first character that opens no tag is kept. */
  lemma RemoveTagsPlainHead(s: string)
    requires s != [] && s[0] != '('
    ensures RemoveTags(s) == [s[0]] + RemoveTags(s[1..])
  {
    LeadingAltOtherStart(s, Tags);
  }

  /** A status tag on its own is removed whole. */
  lemma LeadingTag(tag: string)
    requires tag in Tags
    ensures RemoveTags(tag) == []
  {
    if tag == "(Eksik)" {
      assert StartsWith(tag, Tags[0]);
    } else if tag == "(Mevcut)" {
      assert tag[1] != Tags[0][1];
      assert !StartsWith(tag, Tags[0]) && StartsWith(tag, Tags[1]);
    } else {
      assert tag[1] != Tags[0][1] && tag[1] != Tags[1][1];
      assert !StartsWith(tag, Tags[0]) && !StartsWith(tag, Tags[1]) && StartsWith(tag, Tags[2]);
    }
    assert LeadingAlt(tag, Tags) == Some(tag);
    assert tag[|tag|..] == [];
  }

  /** A line led by a bullet marker, with no bold markers and no tag,
      cleans to its text trimmed. */
  lemma CleanMarked(m: string, x: string)
    requires m in Markers && '(' !in x && '*' !in x
    ensures Clean(m + x) == Trim(x)
  {
    RemoveTagsNoParen(x);
    CleanMarkedTail(m, x, x);
  }

  /** The same line with a status tag at its end cleans to the same text:
      the tag is dropped. */
  lemma CleanMarkedTagged(m: string, x: string, tag: string)
    requires m in Markers && '(' !in x && '*' !in x && tag in Tags
    ensures Clean(m + x + tag) == Trim(x)
  {
    RemoveTagsTrailingTag(x, tag);
    assert m + x + tag == m + (x + tag);
    CleanMarkedTail(m, x + tag, x);
  }

  lemma CleanMarkedTail(m: string, y: string, x: string)
    requires m in Markers && '*' !in x && RemoveTags(y) == x
    ensures Clean(m + y) == Trim(x)
  {
    var t := m + y;
    LeadingMarker(m, y);
    assert t[|m|..] == y;
    ReplaceAllNoStar(x);
  }

  /** A line led by a marker starts with no tag, and that marker is the
      one found. */
  lemma LeadingMarker(m: string, y: string)
    requires m in Markers
    ensures LeadingAlt(m + y, Tags).None?
    ensures LeadingAlt(m + y, Markers) == Some(m)
  {
    var t := m + y;
    assert t[..|m|] == m && t[0] == m[0];
    LeadingAltOtherStart(t, Tags);
  }

  /** A line that starts with neither a marker nor a tag, with no bold
      markers and no tag but one status tag at its end, cleans to its text
      trimmed. */
  lemma CleanTagged(x: string, tag: string)
    requires '(' !in x && '*' !in x && tag in Tags
    requires x == [] || x[0] !in {'-', 'X', '✓', '✅'}
    ensures Clean(x + tag) == Trim(x)
  {
    var t := x + tag;
    RemoveTagsTrailingTag(x, tag);
    ReplaceAllNoStar(x);
    if x != [] {
      assert t[0] == x[0];
      assert x[0] != '(' by { assert x[0] in x; }
      LeadingAltOtherStart(t, Tags);
      LeadingAltOtherStart(t, Markers);
    } else {
      assert t == tag;
      assert StartsWith(tag, tag);
      assert LeadingAlt(t, Tags).Some?;
      LeadingTag(tag);
    }
  }

  /** No alternative matches where the text starts with another character. */
  lemma {:induction false} LeadingAltOtherStart(s: string, alts: seq<string>)
    requires s != [] && forall a :: a in alts ==> a != [] && a[0] != s[0]
    ensures LeadingAlt(s, alts).None?
    decreases |alts|
  {
    if alts != [] {
      assert alts[0] in alts;
      assert !StartsWith(s, alts[0]);
      assert forall a :: a in alts[1..] ==> a in alts;
      LeadingAltOtherStart(s, alts[1..]);
    }
  }

  lemma {:induction false} ReplaceAllNoStar(s: string)
    requires '*' !in s
    ensures ReplaceAll(s, "**", "") == s
    decreases |s|
  {
    if |s| >= 2 {
      assert s[..2] != "**" by { assert s[0] != '*'; }
      ReplaceAllNoStar(s[1..]);
    }
  }

  // ---- renderAnalysisResult ----

  /** The case-insensitive keyword tests of the section parser, as
      predicates on the trimmed line. */
  datatype Keywords = Keywords(
    position: string -> bool,      // Pozisyon|Ünvan
    requirementWord: string -> bool, // Gereklilik
    company: string -> bool,       // Firma|Şirket
    location: string -> bool,      // Konum|Lokasyon
    reqHeader: string -> bool,     // Gereklilik|Nitelik|Requirements
    resHeader: string -> bool      // Sorumluluk|Görev|Responsibilities
  )

  datatype LineKind = PositionLine | CompanyLine | LocationLine | ReqHeader | ResHeader | BodyLine

  /** Which branch of the parser a trimmed line takes, in the order the
      branches are tried. */
  function Classify(l: string, kw: Keywords): (r: LineKind)
    ensures r == PositionLine <==> kw.position(l) && !kw.requirementWord(l)
    ensures r == CompanyLine ==> kw.company(l)
    ensures r == LocationLine ==> kw.location(l) && !kw.company(l)
    ensures r == ReqHeader ==> kw.reqHeader(l) && !kw.company(l) && !kw.location(l)
    ensures r == ResHeader ==> kw.resHeader(l) && !kw.reqHeader(l) && !kw.company(l) && !kw.location(l)
    ensures r == BodyLine <==>
      !(kw.position(l) && !kw.requirementWord(l)) && !kw.company(l) && !kw.location(l) && !kw.reqHeader(l) && !kw.resHeader(l)
  {
    if kw.position(l) && !kw.requirementWord(l) then PositionLine
    else if kw.company(l) then CompanyLine
    else if kw.location(l) then LocationLine
    else if kw.reqHeader(l) then ReqHeader
    else if kw.resHeader(l) then ResHeader
    else BodyLine
  }

  /** The branch a line of the text takes: its trimmed text decides. */
  function KindOf(line: string, kw: Keywords): LineKind {
    Classify(Trim(line), kw)
  }

  datatype Mode = NoMode | Req | Res

  datatype Sections = Sections(position: string, company: string, location: string,
                               requirements: string, responsibilities: string)

  const EmptySections := Sections("", "", "", "", "")

  /** The parser's variables: the `sections` object and the mode `current`. */
  datatype ParseState = ParseState(sections: Sections, mode: Mode)

  const Start := ParseState(EmptySections, NoMode)

  /** One iteration of the `forEach`. Field values come from the trimmed
      line; body lines are appended as they were, with a line break. */
  function Step(st: ParseState, line: string, kw: Keywords): (r: ParseState)
    ensures KindOf(line, kw) != BodyLine ==>
      r.sections.requirements == st.sections.requirements && r.sections.responsibilities == st.sections.responsibilities
    ensures KindOf(line, kw) == BodyLine ==> r.mode == st.mode
  {
    var l := Trim(line);
    var s := st.sections;
    match KindOf(line, kw)
    case PositionLine => st.(sections := s.(position := ExtractValue(l)))
    case CompanyLine => st.(sections := s.(company := ExtractValue(l)))
    case LocationLine => st.(sections := s.(location := ExtractValue(l)))
    case ReqHeader => st.(mode := Req)
    case ResHeader => st.(mode := Res)
    case BodyLine =>
      match st.mode
      case Req => st.(sections := s.(requirements := s.requirements + line + "\n"))
      case Res => st.(sections := s.(responsibilities := s.responsibilities + line + "\n"))
      case NoMode => st
  }

  /** The state after the given lines, starting from the initial one. */
  function Parse(lines: seq<string>, kw: Keywords): ParseState
    decreases |lines|
  {
    if lines == [] then Start
    else Step(Parse(lines[..|lines| - 1], kw), lines[|lines| - 1], kw)
  }

  /** `renderAnalysisResult` up to the sections: no result for an empty
      text; otherwise the `forEach` over its lines. */
  method ParseAnalysis(analysisText: string, kw: Keywords) returns (result: Option<Sections>)
    ensures analysisText == "" ==> result.None?
    ensures analysisText != "" ==> result == Some(Parse(Split(analysisText, '\n'), kw).sections)
  {
    if analysisText == "" {
      return None;
    }
    var lines := Split(analysisText, '\n');
    var sections := EmptySections;
    var current := NoMode;
    var i := 0;
    while i < |lines|
      invariant 0 <= i <= |lines|
      invariant ParseState(sections, current) == Parse(lines[..i], kw)
    {
      ParsePrefixStep(lines, i, kw);
      ghost var before := ParseState(sections, current);
      var line := lines[i];
      var l := Trim(line);
      match KindOf(line, kw) {
        case PositionLine => sections := sections.(position := ExtractValue(l));
        case CompanyLine => sections := sections.(company := ExtractValue(l));
        case LocationLine => sections := sections.(location := ExtractValue(l));
        case ReqHeader => current := Req;
        case ResHeader => current := Res;
        case BodyLine =>
          if current == Req {
            sections := sections.(requirements := sections.requirements + line + "\n");
          } else if current == Res {
            sections := sections.(responsibilities := sections.responsibilities + line + "\n");
          }
      }
      assert ParseState(sections, current) == Step(before, line, kw);
      i := i + 1;
    }
    assert lines[..|lines|] == lines;
    return Some(sections);
  }

  /** One more line of the prefix is one more step of the parser. */
  lemma ParsePrefixStep(lines: seq<string>, i: nat, kw: Keywords)
    requires i < |lines|
    ensures Parse(lines[..i + 1], kw) == Step(Parse(lines[..i], kw), lines[i], kw)
  {
    assert lines[..i + 1][..i] == lines[..i];
  }

  /** The branch each line takes. */
  function Kinds(lines: seq<string>, kw: Keywords): (ks: seq<LineKind>)
    ensures |ks| == |lines|
    ensures forall i :: 0 <= i < |lines| ==> ks[i] == KindOf(lines[i], kw)
  {
    seq(|lines|, i requires 0 <= i < |lines| => KindOf(lines[i], kw))
  }

  /** The position of the last `k` in `ks`, if any. */
  function LastIndex(ks: seq<LineKind>, k: LineKind): (r: Option<nat>)
    ensures r.Some? ==> r.value < |ks| && ks[r.value] == k
    ensures r.Some? ==> forall j :: r.value < j < |ks| ==> ks[j] != k
    ensures r.None? ==> k !in ks
    decreases |ks|
  {
    if ks == [] then None
    else if ks[|ks| - 1] == k then Some(|ks| - 1)
    else LastIndex(ks[..|ks| - 1], k)
  }

  /** The value a field ends with: that of its last line, or "". */
  function LastValue(lines: seq<string>, k: LineKind, kw: Keywords): string {
    match LastIndex(Kinds(lines, kw), k)
    case Some(j) => ExtractValue(Trim(lines[j]))
    case None => ""
  }

  /** The mode after the lines: set by the last header, if any. */
  function ModeAfter(lines: seq<string>, kw: Keywords): Mode {
    var req := LastIndex(Kinds(lines, kw), ReqHeader);
    var res := LastIndex(Kinds(lines, kw), ResHeader);
    if req.None? && res.None? then NoMode
    else if res.None? || (req.Some? && req.value > res.value) then Req
    else Res
  }

  /** The kinds of the lines with one more line appended. */
  lemma KindsSnoc(lines: seq<string>, line: string, kw: Keywords)
    ensures Kinds(lines + [line], kw) == Kinds(lines, kw) + [KindOf(line, kw)]
  {
  }

  /** Appending one kind: it is the last of its kind, the others keep
      their last position. */
  lemma LastIndexSnoc(ks: seq<LineKind>, x: LineKind, k: LineKind)
    ensures LastIndex(ks + [x], k) == if x == k then Some(|ks|) else LastIndex(ks, k)
  {
    assert (ks + [x])[..|ks|] == ks;
  }

  /** The field a kind of line sets. */
  function Field(s: Sections, k: LineKind): string {
    match k
    case PositionLine => s.position
    case CompanyLine => s.company
    case LocationLine => s.location
    case _ => ""
  }

  /** One step sets the field of its own kind and leaves the others. */
  lemma StepField(st: ParseState, line: string, k: LineKind, kw: Keywords)
    requires k == PositionLine || k == CompanyLine || k == LocationLine
    ensures KindOf(line, kw) == k ==> Field(Step(st, line, kw).sections, k) == ExtractValue(Trim(line))
    ensures KindOf(line, kw) != k ==> Field(Step(st, line, kw).sections, k) == Field(st.sections, k)
  {
  }

  /** For position, company and location the last matching line wins. */
  lemma {:induction false} ParseLastWins(lines: seq<string>, k: LineKind, kw: Keywords)
    requires k == PositionLine || k == CompanyLine || k == LocationLine
    ensures Field(Parse(lines, kw).sections, k) == LastValue(lines, k, kw)
    decreases |lines|
  {
    if lines != [] {
      var init := lines[..|lines| - 1];
      var last := lines[|lines| - 1];
      assert lines == init + [last];
      ParseLastWins(init, k, kw);
      KindsSnoc(init, last, kw);
      LastIndexSnoc(Kinds(init, kw), KindOf(last, kw), k);
      StepField(Parse(init, kw), last, k, kw);
      assert Parse(lines, kw) == Step(Parse(init, kw), last, kw);
      if KindOf(last, kw) == k {
        assert LastIndex(Kinds(lines, kw), k) == Some(|init|);
      } else {
        var j := LastIndex(Kinds(init, kw), k);
        assert LastIndex(Kinds(lines, kw), k) == j;
        assert j.Some? ==> lines[j.value] == init[j.value];
      }
    }
  }

  /** The mode is that of the last header. */
  lemma {:induction false} ParseModeLastHeader(lines: seq<string>, kw: Keywords)
    ensures Parse(lines, kw).mode == ModeAfter(lines, kw)
    decreases |lines|
  {
    if lines != [] {
      var init := lines[..|lines| - 1];
      var last := lines[|lines| - 1];
      assert lines == init + [last];
      ParseModeLastHeader(init, kw);
      var k := KindOf(last, kw);
      var ks := Kinds(init, kw);
      KindsSnoc(init, last, kw);
      assert Kinds(lines, kw) == ks + [k];
      LastIndexSnoc(ks, k, ReqHeader);
      LastIndexSnoc(ks, k, ResHeader);
      assert Parse(lines, kw) == Step(Parse(init, kw), last, kw);
      StepMode(Parse(init, kw), last, kw);
    }
  }

  /** Only a header changes the mode. */
  lemma StepMode(st: ParseState, line: string, kw: Keywords)
    ensures Step(st, line, kw).mode ==
      match KindOf(line, kw)
      case ReqHeader => Req
      case ResHeader => Res
      case _ => st.mode
  {
  }

  /** A field line or a header never reaches the requirements or the
      responsibilities, whatever the mode. */
  lemma FieldLinesNotCollected(lines: seq<string>, line: string, kw: Keywords)
    requires KindOf(line, kw) != BodyLine
    ensures Parse(lines + [line], kw).sections.requirements == Parse(lines, kw).sections.requirements
    ensures Parse(lines + [line], kw).sections.responsibilities == Parse(lines, kw).sections.responsibilities
  {
    assert (lines + [line])[..|lines|] == lines;
  }

  /** A body line goes, verbatim and with a line break, to the section the
      mode selects, and nowhere when no mode is set. */
  lemma BodyLineCollected(lines: seq<string>, line: string, kw: Keywords)
    requires KindOf(line, kw) == BodyLine
    ensures var before := Parse(lines, kw).sections;
            var after := Parse(lines + [line], kw).sections;
            && (ModeAfter(lines, kw) == Req ==> after == before.(requirements := before.requirements + line + "\n"))
            && (ModeAfter(lines, kw) == Res ==> after == before.(responsibilities := before.responsibilities + line + "\n"))
            && (ModeAfter(lines, kw) == NoMode ==> after == before)
  {
    var all := lines + [line];
    assert all[..|lines|] == lines;
    assert Parse(all, kw) == Step(Parse(lines, kw), line, kw);
    ParseModeLastHeader(lines, kw);
    StepBody(Parse(lines, kw), line, kw);
  }

  /** A body line is appended to the section of the current mode. */
  lemma StepBody(st: ParseState, line: string, kw: Keywords)
    requires KindOf(line, kw) == BodyLine
    ensures var s := st.sections;
      Step(st, line, kw).sections ==
        match st.mode
        case Req => s.(requirements := s.requirements + line + "\n")
        case Res => s.(responsibilities := s.responsibilities + line + "\n")
        case NoMode => s
  {
  }

  // ---- resItems ----

  predicate IsResponsibility(x: string) {
    x != "" && !Contains(LowerCase(x), "sorumluluk")
  }

  /** A line that mentions the word in any letter case, including the
      Kelvin sign for the k, is not an item. */
  lemma MentionNotResponsibility(p: string, w: string, q: string)
    requires LowerCase(w) == "sorumluluk"
    ensures !IsResponsibility(p + w + q)
  {
    var lp := LowerCase(p);
    LowerCaseAppend(p + w, q);
    LowerCaseAppend(p, w);
    var l := LowerCase(p + w + q);
    assert l == lp + "sorumluluk" + LowerCase(q);
    assert l[|lp|..][..10] == "sorumluluk";
    ContainsSuffix(l, |lp|, "sorumluluk");
  }

  /** `lines.map(stripDecorations)` */
  function StripAll(lines: seq<string>, emoji: set<char>): (r: seq<string>)
    ensures |r| == |lines|
    ensures forall i :: 0 <= i < |lines| ==> r[i] == StripDecorations(Some(lines[i]), emoji)
  {
    Map(lines, l => StripDecorations(Some(l), emoji))
  }

  /** `resItems`: the lines of the responsibilities section with their
      decorations stripped, keeping the non-empty ones that do not mention
      "sorumluluk" in any letter case. */
  function ResItems(responsibilities: string, emoji: set<char>): (r: seq<string>)
    ensures forall x :: x in r ==> IsResponsibility(x)
  {
    Filter(StripAll(Split(responsibilities, '\n'), emoji), IsResponsibility)
  }

  /** An item is exactly a qualifying stripped form of some line. */
  lemma ResItemsExact(responsibilities: string, emoji: set<char>, x: string)
    ensures x in ResItems(responsibilities, emoji) <==>
      IsResponsibility(x) && exists l :: l in Split(responsibilities, '\n') && StripDecorations(Some(l), emoji) == x
  {
    var lines := Split(responsibilities, '\n');
    var f := l => StripDecorations(Some(l), emoji);
    assert ResItems(responsibilities, emoji) == Filter(Map(lines, f), IsResponsibility);
    MapFilterExact(lines, f, IsResponsibility, x);
    assert IsResponsibility(x) == (x != "" && !Contains(LowerCase(x), "sorumluluk"));
  }
}
