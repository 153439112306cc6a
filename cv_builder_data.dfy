/** The data rules both versions of the CV builder page (pages/CVBuilder.jsx
    and cv-builder-frontend/src/pages/CVBuilder.jsx) share: picking the
    latest analysed job, the payload sent for translation, the shape the
    AI result is normalised to, and which data the preview and the PDF
    export show. */
module CvBuilderData {

  import opened Wrappers
  import opened Json
  import ProfileLists
  import Numbers

  /** A plain object: the stored user and the objects the page builds. */
  type Record = map<string, Json>

  /** The time of `new Date(job.createdAt)`, as `stamp` gives it. */
  function Time(job: Json, stamp: Json -> int): int {
    stamp(Get(job, "createdAt"))
  }

  /** The position of the first job of greatest creation time: the job a
      stable sort from newest to oldest puts first. */
  function LatestIndex(jobs: seq<Json>, stamp: Json -> int): (i: nat)
    requires jobs != []
    ensures i < |jobs|
    ensures forall j :: 0 <= j < |jobs| ==> Time(jobs[j], stamp) <= Time(jobs[i], stamp)
    ensures forall j :: 0 <= j < i ==> Time(jobs[j], stamp) < Time(jobs[i], stamp)
    decreases |jobs|
  {
    if |jobs| == 1 then 0
    else
      var rest := LatestIndex(jobs[1..], stamp);
      if Time(jobs[0], stamp) >= Time(jobs[rest + 1], stamp) then 0 else rest + 1
  }

  /** The entries `Array.prototype.sort` hands to the comparator: every
      entry but the `undefined` ones, which it moves to the end, in their
      original order. */
  function Defined(jobs: seq<Json>): (r: seq<Json>)
    ensures forall x :: x in r <==> x in jobs && !x.Undefined?
    ensures |r| <= |jobs|
  {
    if jobs == [] then []
    else (if jobs[0].Undefined? then [] else [jobs[0]]) + Defined(jobs[1..])
  }

  /** `loadLatestJob` after `getUserJobs` answered with `data`: Some(job)
      for the job to show (`null` when the list is empty or missing), None
      when the handler throws and keeps the old job. The spread reads holes
      as `undefined`, and the sort moves the `undefined` entries to the end
      without comparing them, so the newest of the other entries comes
      first. The handler throws when a `null` entry reaches the comparator
      or `.position`, and when every entry is `undefined`. */
  function LatestJob(data: Json, stamp: Json -> int): (r: Option<Json>)
    ensures !HasElements(data) ==> r == Some(Null)
    ensures HasElements(data) ==>
      var jobs := ProfileLists.Iterate(data).value;
      && (r.None? <==> (forall j :: 0 <= j < |jobs| ==> jobs[j].Undefined?) || Null in jobs)
      && (r.Some? ==>
            && r.value in jobs && !r.value.Undefined?
            && forall j :: 0 <= j < |jobs| && !jobs[j].Undefined? ==> Time(jobs[j], stamp) <= Time(r.value, stamp))
  {
    if !HasElements(data) then Some(Null)
    else
      var jobs := ProfileLists.Iterate(data).value;
      var defined := Defined(jobs);
      if defined == [] || Null in defined then
        assert defined == [] ==> forall j :: 0 <= j < |jobs| ==> jobs[j].Undefined?;
        None
      else
        assert defined[0] in jobs;
        var job := defined[LatestIndex(defined, stamp)];
        assert forall j :: 0 <= j < |jobs| && !jobs[j].Undefined? ==> jobs[j] in defined;
        Some(job)
  }

  /** A leading `undefined` entry does not hide the job after it. */
  lemma LatestJobSkipsUndefined(job: Json, stamp: Json -> int)
    requires job.Obj?
    ensures LatestJob(Arr([Undefined, job]), stamp) == Some(job)
  {
    var jobs := ProfileLists.Iterate(Arr([Undefined, job])).value;
    assert jobs == [Undefined, job];
    assert !jobs[1].Undefined? && Null !in jobs;
    var r := LatestJob(Arr([Undefined, job]), stamp);
    assert r.Some? && r.value in jobs && !r.value.Undefined?;
  }

  /** The `length > 0` tests of the payload overrides. */
  predicate NonEmpty(v: Json) {
    HasElements(v)
  }

  /** The keys `translateCVData` may take from the AI result. */
  const AiKeys: set<string> := {"summary", "experiences", "projects", "skills", "languages", "certificates", "education"}

  /** The AI value `translateCVData` writes under `key`, if any: a truthy
      summary, or a non-empty list (for `projects` the optimised projects,
      else the optimised user projects; for `education` the optimised
      education). Without an AI result nothing is overridden. */
  function Override(ai: Json, key: string): (r: Option<Json>)
    ensures key !in AiKeys || !Truthy(ai) ==> r.None?
    ensures r.Some? ==> Truthy(r.value)
  {
    if !Truthy(ai) then None
    else if key == "summary" then SummaryOverride(ai)
    else if key == "experiences" then ListOverride(ai, "optimizedExperiences")
    else if key == "projects" then ProjectsOverride(ai)
    else if key == "skills" then ListOverride(ai, "skills")
    else if key == "languages" then ListOverride(ai, "languages")
    else if key == "certificates" then ListOverride(ai, "certificates")
    else if key == "education" then ListOverride(ai, "optimizedEducation")
    else None
  }

  function SummaryOverride(ai: Json): (r: Option<Json>)
    ensures r.Some? ==> Truthy(r.value)
  {
    if Truthy(Get(ai, "summary")) then Some(Get(ai, "summary")) else None
  }

  function ProjectsOverride(ai: Json): (r: Option<Json>)
    ensures r.Some? ==> Truthy(r.value)
  {
    if NonEmpty(Get(ai, "optimizedProjects")) then Some(Get(ai, "optimizedProjects"))
    else ListOverride(ai, "optimizedUserProjects")
  }

  function ListOverride(ai: Json, source: string): (r: Option<Json>)
    ensures r.Some? ==> Truthy(r.value)
  {
    if NonEmpty(Get(ai, source)) then Some(Get(ai, source)) else None
  }

  /** `translateCVData`'s payload, built as the handler builds it: a deep
      copy of the user, then the AI fields written over it one by one. Each
      key reads its override when there is one and the copy of the user's
      value otherwise. */
  method TranslationPayload(user: Record, ai: Json) returns (payload: Record)
    ensures forall k :: Get(Obj(payload), k) == Overridden(DeepCopy(Obj(user)), ai, k)
  {
    payload := DeepCopy(Obj(user)).fields;
    if Truthy(ai) {
      payload := payload + Overrides(ai);
    }
  }

  /** The fields `translateCVData` overwrites: each key of `AiKeys` whose
      override applies. */
  function Overrides(ai: Json): (r: Record)
    ensures forall k :: k in r <==> Override(ai, k).Some?
    ensures forall k :: k in r ==> r[k] == Override(ai, k).value
  {
    map k | k in AiKeys && Override(ai, k).Some? :: Override(ai, k).value
  }

  /** What the payload holds under `key`, given the copy of the user. */
  function Overridden(copy: Json, ai: Json, key: string): Json {
    if Override(ai, key).Some? then Override(ai, key).value else Get(copy, key)
  }

  /** The body of a successful AI response: `response.data.data ||
      response.data`. */
  function AiBody(responseData: Json): (r: Json)
    ensures Truthy(Get(responseData, "data")) ==> r == Get(responseData, "data")
    ensures !Truthy(Get(responseData, "data")) ==> r == responseData
    ensures Truthy(responseData) ==> Truthy(r)
  {
    Or(Get(responseData, "data"), responseData)
  }

  /** The list fields of the normalised AI result, each with the response
      field it is read from. */
  const ListSources: map<string, string> := map[
    "skills" := "prioritizedSkills",
    "optimizedExperiences" := "optimizedExperiences",
    "optimizedProjects" := "optimizedProjects",
    "optimizedUserProjects" := "optimizedUserProjects",
    "languages" := "optimizedLanguages",
    "certificates" := "optimizedCertificates",
    "optimizedEducation" := "optimizedEducation"
  ]

  /** The fields of the normalised AI result. */
  const NormalizedKeys: set<string> := {"skills", "optimizedExperiences", "optimizedProjects", "optimizedUserProjects",
    "languages", "certificates", "optimizedEducation", "summaries", "summary", "jobUsed"}

  /** The AI result as the page keeps it: the summary is the tailored
      summary, else the first of the tailored summaries, else ""; every
      list the response lacks becomes []; the job used is remembered; and
      there is no other field. */
  function NormalizedAi(data: Json, job: Json): (r: Record)
    ensures r.Keys == NormalizedKeys
    ensures forall k :: k in ListSources ==> k in r && r[k] == Or(Get(data, ListSources[k]), Arr([]))
    ensures "summaries" in r && r["summaries"] == Or(Get(data, "tailoredSummaries"), Arr([]))
    ensures "summary" in r && Truthy(Get(data, "tailoredSummary")) ==> r["summary"] == Get(data, "tailoredSummary")
    ensures "summary" in r && !Truthy(Get(data, "tailoredSummary")) ==>
      r["summary"] == if HasElements(r["summaries"]) then First(r["summaries"]) else Str("")
    ensures "jobUsed" in r && r["jobUsed"] == job
  {
    var summaries := Or(Get(data, "tailoredSummaries"), Arr([]));
    var lists := map k | k in ListSources :: Or(Get(data, ListSources[k]), Arr([]));
    assert "summaries" !in ListSources && "summary" !in ListSources && "jobUsed" !in ListSources;
    lists["summaries" := summaries]
         ["summary" := Or(Get(data, "tailoredSummary"), if HasElements(summaries) then First(summaries) else Str(""))]
         ["jobUsed" := job]
  }

  /** A normalised AI result never lacks a list: every list field and the
      summaries hold something truthy, so nothing reading them falls back
      for absence. */
  lemma NormalizedListsPresent(data: Json, job: Json)
    ensures var r := NormalizedAi(data, job);
      Truthy(r["summaries"]) && forall k :: k in ListSources ==> Truthy(r[k])
  {
  }

  const AiSuccessPrefix := "CV başarıyla optimize edildi! ✨\nKullanılan İlan: "

  /** The success alert names the position of the job the result was made
      for, as a template literal writes it. */
  function AiSuccessText(job: Json): (r: string)
    ensures |r| >= |AiSuccessPrefix| && r[..|AiSuccessPrefix|] == AiSuccessPrefix
    ensures Get(job, "position").Str? ==> r[|AiSuccessPrefix|..] == Get(job, "position").s
    ensures Nullish(job) ==> r[|AiSuccessPrefix|..] == "undefined"
  {
    AiSuccessPrefix + Numbers.ToJsString(Get(job, "position"))
  }

  /** The data the preview shows: the English translation while English is
      chosen and a translation exists, the original user otherwise. */
  function PreviewUser(language: string, translated: Json, original: Json): (r: Json)
    ensures language == "en" && Truthy(translated) ==> r == translated
    ensures !(language == "en" && Truthy(translated)) ==> r == original
  {
    if language == "en" && Truthy(translated) then translated else original
  }

  /** The data handed to the PDF export: the translation while English is
      chosen and one exists, else the AI result when there is one, else the
      original user; spread, tagged with the language, and with each social
      link taken from the data or else from its `profile`. */
  function ExportData(language: string, translated: Json, ai: Json, original: Json): (r: Json)
    ensures r.Obj? && Get(r, "language") == Str(language)
    ensures var active := if language == "en" && Truthy(translated) then translated else if Truthy(ai) then ai else original;
      && (forall k :: k !in {"language", "linkedinUrl", "githubUrl", "websiteUrl"} ==> Get(r, k) == Get(active, k))
      && (forall k :: k in {"linkedinUrl", "githubUrl", "websiteUrl"} ==>
            Get(r, k) == Or(Get(active, k), Get(Get(active, "profile"), k)))
  {
    var active := if language == "en" && Truthy(translated) then translated else Or(ai, original);
    Obj(FieldsOf(active)["language" := Str(language)]
      ["linkedinUrl" := Or(Get(active, "linkedinUrl"), Get(Get(active, "profile"), "linkedinUrl"))]
      ["githubUrl" := Or(Get(active, "githubUrl"), Get(Get(active, "profile"), "githubUrl"))]
      ["websiteUrl" := Or(Get(active, "websiteUrl"), Get(Get(active, "profile"), "websiteUrl"))])
  }

  /** Exporting an object that has neither a name, a profile nor social
      links yields none of them. */
  lemma ExportWithoutLinks(language: string, translated: Json, ai: Json, original: Json)
    requires !(language == "en" && Truthy(translated))
    requires ai.Obj? && "fullName" !in ai.fields && "profile" !in ai.fields
    requires "linkedinUrl" !in ai.fields && "githubUrl" !in ai.fields && "websiteUrl" !in ai.fields
    ensures var r := ExportData(language, translated, ai, original);
      && Get(r, "fullName") == Undefined
      && Get(r, "linkedinUrl") == Undefined && Get(r, "githubUrl") == Undefined && Get(r, "websiteUrl") == Undefined
  {
  }

  /** None of the user's own fields is among the normalised keys. */
  lemma NoUserFields(r: Record)
    requires r.Keys == NormalizedKeys
    ensures "fullName" !in r && "profile" !in r && "linkedinUrl" !in r && "githubUrl" !in r && "websiteUrl" !in r
  {
  }

  /** After an AI run, and unless an English translation is shown, the
      export gets the normalised AI result, which carries none of the
      user's own fields: no name, and no social links. */
  lemma ExportAfterAiHasNoName(language: string, translated: Json, data: Json, job: Json, original: Json)
    requires !(language == "en" && Truthy(translated))
    ensures var r := ExportData(language, translated, Obj(NormalizedAi(data, job)), original);
      && Get(r, "fullName") == Undefined
      && Get(r, "linkedinUrl") == Undefined && Get(r, "githubUrl") == Undefined && Get(r, "websiteUrl") == Undefined
  {
    NoUserFields(NormalizedAi(data, job));
    ExportWithoutLinks(language, translated, Obj(NormalizedAi(data, job)), original);
  }
}
