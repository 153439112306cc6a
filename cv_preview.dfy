/** The data shaping of the CV preview component: URL and text clean-up,
    language-level labels, the "present" short cut of date formatting, the
    choice and rotation of summaries, and the precedence between the AI's
    optimised lists and the user's own. */
module CvPreview {

  import opened Wrappers
  import opened Json
  import opened Text

  datatype Lang = Tr | En

  /** The "present" label of the labels table. */
  function PresentLabel(lang: Lang): string {
    match lang
    case Tr => "Devam Ediyor"
    case En => "Present"
  }

  // ---- normalizeUrl ----

  predicate HasScheme(url: string) {
    StartsWith(url, "http://") || StartsWith(url, "https://")
  }

  /** `normalizeUrl`: empty stays empty, a URL with an http(s) scheme is
      kept, anything else gets `https://` in front. */
  function NormalizeUrl(url: string): (r: string)
    ensures url == "" ==> r == ""
    ensures url != "" ==> HasScheme(r)
    ensures HasScheme(url) ==> r == url
    ensures !HasScheme(url) && url != "" ==> r == "https://" + url
  {
    if url == "" then ""
    else if HasScheme(url) then url
    else "https://" + url
  }

  /** Normalising twice normalises no further. */
  lemma NormalizeUrlIdempotent(url: string)
    ensures NormalizeUrl(NormalizeUrl(url)) == NormalizeUrl(url)
  {
  }

  /** The input is always the tail of the result: nothing is lost. */
  lemma NormalizeUrlKeepsInput(url: string)
    ensures var r := NormalizeUrl(url); |url| <= |r| && r[|r| - |url|..] == url
  {
  }

  // ---- cleanText ----

  /** The Markdown characters `cleanText` removes. */
  const MarkdownChars: set<char> := {'#', '*', '_', '`', '>'}

  predicate NoDoubleSpace(s: string) {
    forall i, j :: 0 <= i < |s| && 0 <= j < |s| && j == i + 1 ==> !(IsSpace(s[i]) && IsSpace(s[j]))
  }

  /** `cleanText`: Markdown characters removed, runs of two or more white
      space characters collapsed to one space, then trimmed. */
  function CleanText(text: string): (r: string)
    ensures text == "" ==> r == ""
    ensures forall i :: 0 <= i < |r| ==> r[i] !in MarkdownChars
    ensures r == [] || (!IsSpace(r[0]) && !IsSpace(r[|r| - 1]))
  {
    if text == "" then ""
    else
      var collapsed := ReplaceSpaceRuns(RemoveChars(text, MarkdownChars), 2, " ");
      TrimAvoids(collapsed, MarkdownChars);
      Trim(collapsed)
  }

  /** The collapse leaves no two white-space characters side by side. */
  lemma {:induction false} CollapseNoDoubleSpace(s: string)
    ensures NoDoubleSpace(ReplaceSpaceRuns(s, 2, " "))
    decreases |s|
  {
    if s != [] {
      if IsSpace(s[0]) {
        var n := SpaceRun(s);
        var rest := s[n..];
        CollapseNoDoubleSpace(rest);
        var head := if n >= 2 then " " else s[..n];
        assert |head| == 1 && IsSpace(head[0]);
        var tail := ReplaceSpaceRuns(rest, 2, " ");
        assert rest != [] ==> tail[0] == rest[0];
        assert ReplaceSpaceRuns(s, 2, " ") == head + tail;
      } else {
        CollapseNoDoubleSpace(s[1..]);
      }
    }
  }

  /** A slice of text without doubled white space has none either. */
  lemma SliceNoDoubleSpace(s: string, lo: nat, hi: nat)
    requires lo <= hi <= |s| && NoDoubleSpace(s)
    ensures NoDoubleSpace(s[lo..hi])
  {
    var t := s[lo..hi];
    forall i, j | 0 <= i < j < |t| && j == i + 1
      ensures !(IsSpace(t[i]) && IsSpace(t[j]))
    {
      assert t[i] == s[lo + i] && t[j] == s[lo + j];
    }
  }

  /** Trimming keeps text free of doubled white space. */
  lemma TrimNoDoubleSpace(c: string)
    requires NoDoubleSpace(c)
    ensures NoDoubleSpace(Trim(c))
  {
    var r := Trim(c);
    var off := |c| - |TrimStart(c)|;
    SliceNoDoubleSpace(c, off, off + |r|);
  }

  /** The cleaned text has no two white-space characters side by side. */
  lemma CleanTextNoDoubleSpace(text: string)
    ensures NoDoubleSpace(CleanText(text))
  {
    if text != "" {
      var plain := RemoveChars(text, MarkdownChars);
      CollapseNoDoubleSpace(plain);
      TrimNoDoubleSpace(ReplaceSpaceRuns(plain, 2, " "));
    }
  }

  // ---- getLanguageLevelText ----

  /** The label of a known level (upper case key) in the given language. */
  function LevelLabel(key: string, lang: Lang): Option<string> {
    match lang
    case Tr =>
      if key == "BEGINNER" then Some("Başlangıç")
      else if key == "INTERMEDIATE" then Some("Orta")
      else if key == "ADVANCED" then Some("İleri")
      else if key == "NATIVE" then Some("Ana Dil")
      else None
    case En =>
      if key == "BEGINNER" then Some("Beginner")
      else if key == "INTERMEDIATE" then Some("Intermediate")
      else if key == "ADVANCED" then Some("Advanced")
      else if key == "NATIVE" then Some("Native")
      else None
  }

  /** `getLanguageLevelText`: the label of the level, matched without
      regard to case; an unknown level as it was given; "" for none. */
  function LanguageLevelText(level: string, lang: Lang): (r: string)
    ensures level == "" ==> r == ""
    ensures LevelLabel(UpperCase(level), lang).None? ==> r == level
    ensures LevelLabel(UpperCase(level), lang).Some? ==> r == LevelLabel(UpperCase(level), lang).value
  {
    var known := LevelLabel(UpperCase(level), lang);
    if level == "" then ""
    else if known.Some? then known.value
    else level
  }

  /** Two spellings of a level that differ only in letter case get the
      same label. */
  lemma LanguageLevelCaseInsensitive(a: string, b: string, lang: Lang)
    requires UpperCase(a) == UpperCase(b)
    requires LevelLabel(UpperCase(a), lang).Some?
    ensures LanguageLevelText(a, lang) == LanguageLevelText(b, lang)
  {
    assert a != "" && b != "";
  }

  /** Upper-casing maps the dotless i to I, so "natıve" is the native
      level. */
  lemma LanguageLevelDotlessI()
    ensures LanguageLevelText("nat\U{0131}ve", Tr) == "Ana Dil"
    ensures LanguageLevelText("nat\U{0131}ve", En) == "Native"
  {
    assert UpperCase("nat\U{0131}ve") == "NATIVE";
  }

  // ---- formatDate ----

  /** What `formatDate` shows: a fixed text, the date string as it was
      given, or the date as the browser's locale formatting renders it (not
      modelled). */
  datatype DateText = Label(text: string) | Verbatim(raw: Json) | LocaleDate(raw: Json, lang: Lang)

  /** `formatDate`: an ongoing entry is "present" whatever its date; a
      missing date is empty; a date the browser cannot parse (`parses`
      false) is shown as given. */
  function FormatDate(date: Json, isOngoing: Json, parses: bool, lang: Lang): (r: DateText)
    ensures Truthy(isOngoing) ==> r == Label(PresentLabel(lang))
    ensures !Truthy(isOngoing) && !Truthy(date) ==> r == Label("")
    ensures !Truthy(isOngoing) && Truthy(date) && !parses ==> r == Verbatim(date)
    ensures !Truthy(isOngoing) && Truthy(date) && parses ==> r == LocaleDate(date, lang)
  {
    if Truthy(isOngoing) then Label(PresentLabel(lang))
    else if !Truthy(date) then Label("")
    else if !parses then Verbatim(date)
    else LocaleDate(date, lang)
  }

  // ---- the header ----

  /** The name in the header: `user.fullName || user.adSoyad`, else a
      placeholder. */
  function HeaderName(user: Json): (r: Json)
    ensures Truthy(r)
    ensures Truthy(Get(user, "fullName")) ==> r == Get(user, "fullName")
    ensures !Truthy(Get(user, "fullName")) && Truthy(Get(user, "adSoyad")) ==> r == Get(user, "adSoyad")
    ensures !Truthy(Get(user, "fullName")) && !Truthy(Get(user, "adSoyad")) ==> r == Str("İSİM GİRİLMEDİ")
  {
    Or(Or(Get(user, "fullName"), Get(user, "adSoyad")), Str("İSİM GİRİLMEDİ"))
  }

  /** A social link of the header: the user's own field, else the one
      under `profile`, else the legacy field `alias`, else "". */
  function SocialLink(user: Json, key: string, alias: string): (r: Json)
    ensures Truthy(Get(user, key)) ==> r == Get(user, key)
    ensures !Truthy(Get(user, key)) && Truthy(Get(Get(user, "profile"), key)) ==> r == Get(Get(user, "profile"), key)
    ensures !Truthy(Get(user, key)) && !Truthy(Get(Get(user, "profile"), key)) ==> r == Or(Get(user, alias), Str(""))
  {
    Or(Or(Or(Get(user, key), Get(Get(user, "profile"), key)), Get(user, alias)), Str(""))
  }

  /** The link the header renders for a social field: shown only when the
      field is non-empty, always with an http(s) scheme, and always ending
      with what the user typed. */
  lemma SocialLinkRendered(user: Json, key: string, alias: string)
    requires SocialLink(user, key, alias).Str? && Truthy(SocialLink(user, key, alias))
    ensures var s := SocialLink(user, key, alias).s;
      var href := NormalizeUrl(s);
      && HasScheme(href) && |s| <= |href| && href[|href| - |s|..] == s
  {
    NormalizeUrlKeepsInput(SocialLink(user, key, alias).s);
  }

  // ---- summaries ----

  /** `aiData?.summary || user.summary || user.aboutMe || ""` */
  function BaseSummary(aiData: Json, user: Json): (r: Json)
    ensures Truthy(Get(aiData, "summary")) ==> r == Get(aiData, "summary")
    ensures !Truthy(Get(aiData, "summary")) && Truthy(Get(user, "summary")) ==> r == Get(user, "summary")
    ensures !Truthy(Get(aiData, "summary")) && !Truthy(Get(user, "summary")) && Truthy(Get(user, "aboutMe"))
            ==> r == Get(user, "aboutMe")
    ensures !Truthy(Get(aiData, "summary")) && !Truthy(Get(user, "summary")) && !Truthy(Get(user, "aboutMe"))
            ==> r == Str("")
  {
    Or(Or(Or(Get(aiData, "summary"), Get(user, "summary")), Get(user, "aboutMe")), Str(""))
  }

  /** The elements of an array, or the characters of a string, as indexing
      sees them. */
  function Elements(v: Json): seq<Json> {
    match v
    case Arr(xs) => xs
    case Str(s) => seq(|s|, i requires 0 <= i < |s| => Str([s[i]]))
    case _ => []
  }

  /** The summaries to rotate through: the AI's list when it has elements,
      otherwise the base summary alone when it is non-empty, otherwise
      none. */
  function Summaries(aiData: Json, user: Json): (r: seq<Json>)
    ensures HasElements(Get(aiData, "summaries")) ==> r == Elements(Get(aiData, "summaries"))
    ensures !HasElements(Get(aiData, "summaries")) && Truthy(BaseSummary(aiData, user)) ==> r == [BaseSummary(aiData, user)]
    ensures !HasElements(Get(aiData, "summaries")) && !Truthy(BaseSummary(aiData, user)) ==> r == []
  {
    var ai := Get(aiData, "summaries");
    if Truthy(ai) && HasElements(ai) then Elements(ai)
    else if Truthy(BaseSummary(aiData, user)) then [BaseSummary(aiData, user)]
    else []
  }

  /** `summaries[summaryIndex] || ""`: an index past the end reads as "". */
  function CurrentSummary(summaries: seq<Json>, index: nat): (r: Json)
    ensures index < |summaries| && Truthy(summaries[index]) ==> r == summaries[index]
    ensures !(index < |summaries| && Truthy(summaries[index])) ==> r == Str("")
  {
    if index < |summaries| then Or(summaries[index], Str("")) else Str("")
  }

  /** The index after one press of "change text". */
  function NextIndex(index: nat, count: nat): (r: nat)
    ensures count <= 1 ==> r == index
    ensures count > 1 ==> r < count
  {
    if count <= 1 then index else (index + 1) % count
  }

  /** The index after `presses` presses. */
  function Rotate(index: nat, count: nat, presses: nat): nat {
    if presses == 0 then index else NextIndex(Rotate(index, count, presses - 1), count)
  }

  lemma {:induction false} RotateCompose(index: nat, count: nat, a: nat, b: nat)
    ensures Rotate(index, count, a + b) == Rotate(Rotate(index, count, a), count, b)
  {
    if b > 0 {
      RotateCompose(index, count, a, b - 1);
    }
  }

  lemma NextIndexStep(index: nat, count: nat)
    requires count > 1 && index < count
    ensures index + 1 < count ==> NextIndex(index, count) == index + 1
    ensures index + 1 == count ==> NextIndex(index, count) == 0
  {
  }

  /** Below the last summary each press moves one step forward. */
  lemma {:induction false} RotateClimb(index: nat, count: nat, presses: nat)
    requires count > 1 && index + presses < count
    ensures Rotate(index, count, presses) == index + presses
  {
    if presses > 0 {
      RotateClimb(index, count, presses - 1);
      NextIndexStep(index + presses - 1, count);
    }
  }

  lemma {:induction false} RotateIdle(index: nat, count: nat, presses: nat)
    requires count <= 1
    ensures Rotate(index, count, presses) == index
  {
    if presses > 0 {
      RotateIdle(index, count, presses - 1);
    }
  }

  /** After as many presses as there are summaries the index is back where
      it started. */
  lemma RotateFullCircle(index: nat, count: nat)
    requires index < count || count <= 1
    ensures Rotate(index, count, count) == index
  {
    if count > 1 {
      var up := count - 1 - index;
      RotateCompose(index, count, up, index + 1);
      RotateClimb(index, count, up);
      RotateCompose(count - 1, count, 1, index);
      NextIndexStep(count - 1, count);
      assert Rotate(count - 1, count, 1) == 0;
      RotateClimb(0, count, index);
    } else {
      RotateIdle(index, count, count);
    }
  }

  /** The `summaryIndex` state of the component. */
  class SummaryCarousel {
    var index: nat

    constructor ()
      ensures index == 0
    {
      index := 0;
    }

    /** `handleChangeSummary` */
    method ChangeSummary(summaries: seq<Json>)
      modifies this
      ensures |summaries| <= 1 ==> index == old(index)
      ensures |summaries| > 1 ==> index == (old(index) + 1) % |summaries|
      ensures old(index) < |summaries| ==> index < |summaries|
    {
      if |summaries| <= 1 {
        return;
      }
      index := (index + 1) % |summaries|;
    }
  }

  // ---- list precedence ----

  /** `aiData?.optimizedExperiences?.length > 0 ? aiData.optimizedExperiences
      : user.experiences || []` */
  function ExperienceList(aiData: Json, user: Json): (r: Json)
    ensures HasElements(Get(aiData, "optimizedExperiences")) ==> r == Get(aiData, "optimizedExperiences")
    ensures !HasElements(Get(aiData, "optimizedExperiences")) ==> r == Or(Get(user, "experiences"), Arr([]))
  {
    if HasElements(Get(aiData, "optimizedExperiences")) then Get(aiData, "optimizedExperiences")
    else Or(Get(user, "experiences"), Arr([]))
  }

  /** Projects: the AI's optimised projects, else its optimised user
      projects, else the user's projects, else none. */
  function ProjectList(aiData: Json, user: Json): (r: Json)
    ensures HasElements(Get(aiData, "optimizedProjects")) ==> r == Get(aiData, "optimizedProjects")
    ensures !HasElements(Get(aiData, "optimizedProjects")) && HasElements(Get(aiData, "optimizedUserProjects"))
            ==> r == Get(aiData, "optimizedUserProjects")
    ensures !HasElements(Get(aiData, "optimizedProjects")) && !HasElements(Get(aiData, "optimizedUserProjects"))
            ==> r == Or(Get(user, "projects"), Arr([]))
  {
    if HasElements(Get(aiData, "optimizedProjects")) then Get(aiData, "optimizedProjects")
    else if HasElements(Get(aiData, "optimizedUserProjects")) then Get(aiData, "optimizedUserProjects")
    else Or(Get(user, "projects"), Arr([]))
  }

  /** An AI list with no elements never hides the user's list. */
  lemma EmptyAiListsDefer(aiData: Json, user: Json)
    requires !HasElements(Get(aiData, "optimizedExperiences"))
    requires !HasElements(Get(aiData, "optimizedProjects")) && !HasElements(Get(aiData, "optimizedUserProjects"))
    ensures Truthy(Get(user, "experiences")) ==> ExperienceList(aiData, user) == Get(user, "experiences")
    ensures Truthy(Get(user, "projects")) ==> ProjectList(aiData, user) == Get(user, "projects")
  {
  }

  // ---- education ----

  /** A mutable JavaScript array, as the user's education list is: the
      preview pushes into it in place. */
  class JsArray {
    var elems: seq<Json>

    constructor (elems: seq<Json>)
      ensures this.elems == elems
    {
      this.elems := elems;
    }
  }

  predicate HasSchool(user: Json) {
    Truthy(Get(user, "educationSchool")) || Truthy(Get(user, "university"))
  }

  /** The entry synthesised from the flat education fields of the profile. */
  function SynthesisedEducation(user: Json): Json {
    Obj(map[
      "university" := Or(Get(user, "educationSchool"), Get(user, "university")),
      "degree" := Or(Get(user, "educationDegree"), Get(user, "educationLevel")),
      "field" := Or(Get(user, "educationDepartment"), Get(user, "department")),
      "startYear" := Get(user, "educationStartYear"),
      "graduationYear" := Get(user, "educationEndYear")
    ])
  }

  /** The user's list after the fallback: one synthesised entry when it is
      empty and a school is known, otherwise unchanged. */
  function WithFallback(elems: seq<Json>, user: Json): (r: seq<Json>)
    ensures elems == [] && HasSchool(user) ==> r == [SynthesisedEducation(user)]
    ensures !(elems == [] && HasSchool(user)) ==> r == elems
  {
    if elems == [] && HasSchool(user) then [SynthesisedEducation(user)] else elems
  }

  /** Applying the fallback again adds nothing: at most one entry is ever
      synthesised. */
  lemma WithFallbackIdempotent(elems: seq<Json>, user: Json)
    ensures WithFallback(WithFallback(elems, user), user) == WithFallback(elems, user)
    ensures |WithFallback(elems, user)| <= |elems| + 1
  {
  }

  /** The education list of the preview. `userEducation` is the array that
      `user.education` refers to (null when it is missing). With no AI list
      and an empty user list, the synthesised entry is pushed into the
      user's own array, so it is still there on the next render. */
  method EducationList(aiData: Json, user: Json, userEducation: JsArray?) returns (list: Json)
    modifies userEducation
    ensures HasElements(Get(aiData, "optimizedEducation")) ==>
      list == Get(aiData, "optimizedEducation") && (userEducation != null ==> userEducation.elems == old(userEducation.elems))
    ensures !HasElements(Get(aiData, "optimizedEducation")) && userEducation != null ==>
      userEducation.elems == WithFallback(old(userEducation.elems), user) && list == Arr(userEducation.elems)
    ensures !HasElements(Get(aiData, "optimizedEducation")) && userEducation == null ==>
      list == Arr(WithFallback([], user))
  {
    var ai := Get(aiData, "optimizedEducation");
    if HasElements(ai) {
      return ai;
    }
    var target := userEducation;
    if target == null {
      target := new JsArray([]);
    }
    if |target.elems| == 0 && HasSchool(user) {
      target.elems := target.elems + [SynthesisedEducation(user)];
    }
    list := Arr(target.elems);
  }
}
