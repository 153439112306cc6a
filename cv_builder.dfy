/** The CV builder page (cv-builder-frontend/src/pages/CVBuilder.jsx and its
    earlier copy pages/CVBuilder.jsx): the page state the handlers update,
    one method per step of each handler. An asynchronous handler is split
    at its `await` into a Start method, which runs the guards and says
    which request to make, and a Finish method, which takes the outcome of
    that request (None or Err when the promise rejects). The two copies of
    the page differ only in the alert shown when the AI request fails; the
    earlier copy is this class built with `detailedAiErrors` false. */
module CvBuilder {

  import opened Wrappers
  import opened Json
  import opened CvBuilderData
  import Numbers
  import PdfService
  import LegacyPdfService

  const WaitForProfileText := "Önce profilinizin yüklenmesini bekleyin."
  const TranslateFailedText := "Çeviri servisine ulaşılamadı."
  const NoUserText := "Kullanıcı bilgisi bulunamadı."
  const NoJobText := "Lütfen önce 'İş Analizi' sayfasından bir ilan analiz edin."
  const AiDefaultErrorText := "AI servisine ulaşılamadı." + " Backend konsolunu kontrol edin."
  const BadRequestText := "Geçersiz istek. Kullanıcı bilgilerinizi kontrol edin."
  const ServerErrorText := "Sunucu hatası. Lütfen daha sonra tekrar deneyin."
  const NoResponseText := "Backend'e ulaşılamadı. Backend servisinin çalıştığından emin olun."
  const ExportFailedText := "PDF oluşturulurken hata oluştu."
  const ErrorPrefix := "Hata: "

  /** The newer page's alert for a failed AI request. The server's
      `message` wins, then its `error`, then the status (400, then 500);
      without a response, a request that got no answer has its own text;
      anything else gets the default text. */
  function AiErrorText(err: Json): (r: string)
    ensures var response := Get(err, "response"); var body := Get(response, "data");
      && (Truthy(response) && Truthy(Get(body, "message")) ==> r == ErrorPrefix + Numbers.ToJsString(Get(body, "message")))
      && (Truthy(response) && !Truthy(Get(body, "message")) && Truthy(Get(body, "error")) ==>
            r == ErrorPrefix + Numbers.ToJsString(Get(body, "error")))
      && (Truthy(response) && !Truthy(Get(body, "message")) && !Truthy(Get(body, "error")) ==>
            r == if Get(response, "status") == Num(400.0) then BadRequestText
                 else if Get(response, "status") == Num(500.0) then ServerErrorText
                 else AiDefaultErrorText)
      && (!Truthy(response) ==> r == if Truthy(Get(err, "request")) then NoResponseText else AiDefaultErrorText)
  {
    var response := Get(err, "response");
    if Truthy(response) then
      var body := Get(response, "data");
      if Truthy(Get(body, "message")) then ErrorPrefix + Numbers.ToJsString(Get(body, "message"))
      else if Truthy(Get(body, "error")) then ErrorPrefix + Numbers.ToJsString(Get(body, "error"))
      else if Get(response, "status") == Num(400.0) then BadRequestText
      else if Get(response, "status") == Num(500.0) then ServerErrorText
      else AiDefaultErrorText
    else if Truthy(Get(err, "request")) then NoResponseText
    else AiDefaultErrorText
  }

  /** The alert for a failed AI request: the detailed text on the newer
      page, always the default text on the earlier one. */
  function AiFailureText(detailed: bool, err: Json): (r: string)
    ensures !detailed ==> r == AiDefaultErrorText
    ensures detailed ==> r == AiErrorText(err)
  {
    if detailed then AiErrorText(err) else AiDefaultErrorText
  }

  /** The newer page falls back to the default text exactly when the error
      tells nothing more: no response and no request, or a response with
      neither a message nor an error and a status other than 400 and 500. */
  lemma AiErrorDefaultExactly(err: Json)
    ensures var response := Get(err, "response"); var body := Get(response, "data");
      AiErrorText(err) == AiDefaultErrorText <==>
        (!Truthy(response) && !Truthy(Get(err, "request"))) ||
        (Truthy(response) && !Truthy(Get(body, "message")) && !Truthy(Get(body, "error")) &&
         Get(response, "status") != Num(400.0) && Get(response, "status") != Num(500.0))
  {
    var response := Get(err, "response");
    var body := Get(response, "data");
    if Truthy(response) && (Truthy(Get(body, "message")) || Truthy(Get(body, "error"))) {
      var r := AiErrorText(err);
      assert r[0] == 'H';
      assert AiDefaultErrorText[0] == 'A';
    }
  }

  /** Where the earlier page shows the fixed text, the newer one passes the
      server's message on. */
  lemma ServerMessageOnlyOnNewerPage(err: Json)
    requires Truthy(Get(err, "response")) && Truthy(Get(Get(Get(err, "response"), "data"), "message"))
    ensures AiFailureText(true, err) != AiFailureText(false, err)
    ensures AiFailureText(false, err) == AiDefaultErrorText
  {
    assert AiFailureText(true, err)[0] == 'H';
  }

  /** After an AI run, unless an English translation is shown, the export
      has no name, so both PDF services fall back to the stem "CV". */
  lemma ExportAfterAiNamedCv(language: string, translated: Json, data: Json, job: Json, original: Json)
    requires !(language == "en" && Truthy(translated))
    ensures var r := ExportData(language, translated, Obj(NormalizedAi(data, job)), original);
      PdfService.SafeName(r) == Some("CV") && LegacyPdfService.SafeName(r) == Some("CV")
  {
    var r := ExportData(language, translated, Obj(NormalizedAi(data, job)), original);
    ExportAfterAiHasNoName(language, translated, data, job, original);
    PdfService.SafeNameFallback(r);
    LegacyPdfService.SafeNameFallback(r);
  }

  class CvBuilderPage {
    var originalUser: Json
    var translatedUser: Json
    var aiData: Json
    var latestJob: Json
    var aiLoading: bool
    var pdfLoading: bool
    var isTranslating: bool
    var loadingJob: bool
    var language: string
    /** True for the newer page, whose AI failure alert is detailed. */
    const detailedAiErrors: bool

    /** The page's initial state: nothing loaded, Turkish, nothing pending. */
    constructor (detailedAiErrors: bool)
      ensures this.detailedAiErrors == detailedAiErrors
      ensures originalUser == Null && translatedUser == Null && aiData == Null && latestJob == Null
      ensures !aiLoading && !pdfLoading && !isTranslating && !loadingJob
      ensures language == "tr"
    {
      this.detailedAiErrors := detailedAiErrors;
      originalUser := Null;
      translatedUser := Null;
      aiData := Null;
      latestJob := Null;
      aiLoading := false;
      pdfLoading := false;
      isTranslating := false;
      loadingJob := false;
      language := "tr";
    }

    /** The mount effect. `authUser` is the parsed stored user (None when
        nothing is stored, which redirects, or when the stored text does
        not parse, which throws before anything is set); `profile` is the
        profile response's data (None when the request fails). The user is
        the stored user merged with its profile, kept whole under
        `profile` too; on failure the stored user alone. The result is the
        id to load jobs for. A stored `null` makes `authUser.id` throw after
        the merge, and the catch puts `null` back. */
    method Init(authUser: Option<Json>, profile: Option<Json>) returns (loadJobsFor: Option<Json>)
      modifies this
      ensures authUser.None? ==> originalUser == old(originalUser) && loadJobsFor.None?
      ensures authUser.Some? && profile.None? ==> originalUser == authUser.value && loadJobsFor.None?
      ensures authUser.Some? && profile.Some? && authUser.value.Null? ==> originalUser == Null && loadJobsFor.None?
      ensures authUser.Some? && profile.Some? && !authUser.value.Null? ==>
        var p := Or(profile.value, Obj(map[]));
        && originalUser == Obj(FieldsOf(authUser.value)["profile" := p] + FieldsOf(p))
        && loadJobsFor == Some(Get(authUser.value, "id"))
      ensures translatedUser == old(translatedUser) && aiData == old(aiData) && latestJob == old(latestJob)
      ensures aiLoading == old(aiLoading) && pdfLoading == old(pdfLoading) && isTranslating == old(isTranslating)
      ensures loadingJob == old(loadingJob) && language == old(language)
    {
      loadJobsFor := None;
      if authUser.None? {
        return;
      }
      var u := authUser.value;
      if profile.None? {
        originalUser := u;
        return;
      }
      var p := Or(profile.value, Obj(map[]));
      originalUser := Obj(FieldsOf(u)["profile" := p] + FieldsOf(p));
      if u.Null? {
        originalUser := u;
      } else {
        loadJobsFor := Some(Get(u, "id"));
      }
    }

    /** `loadLatestJob` up to its request. */
    method StartLoadJobs()
      modifies this
      ensures loadingJob
      ensures originalUser == old(originalUser) && translatedUser == old(translatedUser)
      ensures aiData == old(aiData) && latestJob == old(latestJob)
      ensures aiLoading == old(aiLoading) && pdfLoading == old(pdfLoading) && isTranslating == old(isTranslating)
      ensures language == old(language)
    {
      loadingJob := true;
    }

    /** `loadLatestJob` after its request: the newest job, or `null` for no
        jobs; the old job stays when the request fails or the handler
        throws. The flag is cleared on every path. */
    method FinishLoadJobs(response: Option<Json>, stamp: Json -> int)
      modifies this
      ensures !loadingJob
      ensures response.None? ==> latestJob == old(latestJob)
      ensures response.Some? ==> latestJob == LatestJob(response.value, stamp).GetOr(old(latestJob))
      ensures originalUser == old(originalUser) && translatedUser == old(translatedUser) && aiData == old(aiData)
      ensures aiLoading == old(aiLoading) && pdfLoading == old(pdfLoading) && isTranslating == old(isTranslating)
      ensures language == old(language)
    {
      if response.Some? {
        var job := LatestJob(response.value, stamp);
        if job.Some? {
          latestJob := job.value;
        }
      }
      loadingJob := false;
    }

    /** `handleRefreshJob`: the id to reload jobs for, if the user has one. */
    method RefreshJob() returns (loadJobsFor: Option<Json>)
      ensures loadJobsFor.Some? <==> Truthy(Get(originalUser, "id"))
      ensures loadJobsFor.Some? ==> loadJobsFor.value == Get(originalUser, "id")
    {
      var id := Get(originalUser, "id");
      loadJobsFor := if Truthy(id) then Some(id) else None;
    }

    /** `handleLanguageChange`: the language becomes the target, and a
        translation is asked for exactly when English is newly chosen and
        no translation is cached. */
    method ChangeLanguage(target: string) returns (translate: bool)
      modifies this
      ensures language == target
      ensures translate <==> target != old(language) && target == "en" && !Truthy(translatedUser)
      ensures originalUser == old(originalUser) && translatedUser == old(translatedUser)
      ensures aiData == old(aiData) && latestJob == old(latestJob)
      ensures aiLoading == old(aiLoading) && pdfLoading == old(pdfLoading) && isTranslating == old(isTranslating)
      ensures loadingJob == old(loadingJob)
    {
      translate := false;
      if target == language {
        return;
      }
      language := target;
      if target == "tr" {
        return;
      }
      if target == "en" && !Truthy(translatedUser) {
        translate := true;
      }
    }

    /** `translateCVData` up to its request: without a user an alert and no
        request; otherwise the flag is set and the payload is the deep copy
        of the user with the AI fields written over it. The user itself is
        left as it was. */
    method StartTranslate() returns (payload: Option<Record>, alert: Option<string>)
      modifies this
      ensures payload.Some? <==> Truthy(originalUser)
      ensures alert.Some? <==> !Truthy(originalUser)
      ensures alert.Some? ==> alert.value == WaitForProfileText
      ensures payload.Some? ==>
        forall k :: Get(Obj(payload.value), k) == Overridden(DeepCopy(Obj(FieldsOf(originalUser))), aiData, k)
      ensures isTranslating == (old(isTranslating) || payload.Some?)
      ensures originalUser == old(originalUser) && translatedUser == old(translatedUser)
      ensures aiData == old(aiData) && latestJob == old(latestJob)
      ensures aiLoading == old(aiLoading) && pdfLoading == old(pdfLoading) && loadingJob == old(loadingJob)
      ensures language == old(language)
    {
      if !Truthy(originalUser) {
        return None, Some(WaitForProfileText);
      }
      isTranslating := true;
      var p := TranslationPayload(FieldsOf(originalUser), aiData);
      payload, alert := Some(p), None;
    }

    /** `translateCVData` after its request: a truthy answer becomes the
        cached translation; a failure alerts and switches back to Turkish.
        The flag is cleared on every path. */
    method FinishTranslate(response: Option<Json>) returns (alert: Option<string>)
      modifies this
      ensures !isTranslating
      ensures response.Some? && Truthy(response.value) ==> translatedUser == response.value
      ensures !(response.Some? && Truthy(response.value)) ==> translatedUser == old(translatedUser)
      ensures response.None? ==> language == "tr" && alert == Some(TranslateFailedText)
      ensures response.Some? ==> language == old(language) && alert.None?
      ensures originalUser == old(originalUser) && aiData == old(aiData) && latestJob == old(latestJob)
      ensures aiLoading == old(aiLoading) && pdfLoading == old(pdfLoading) && loadingJob == old(loadingJob)
    {
      alert := None;
      match response {
        case Some(data) =>
          if Truthy(data) {
            translatedUser := data;
          }
        case None =>
          alert := Some(TranslateFailedText);
          language := "tr";
      }
      isTranslating := false;
    }

    /** `handleAiGenerate` up to its request: no user id or no analysed job
        means an alert and no request; otherwise the flag is set and the
        request is made for the user's id. */
    method StartAiGenerate() returns (userId: Option<Json>, alert: Option<string>)
      modifies this
      ensures userId.Some? <==> Truthy(Get(originalUser, "id")) && Truthy(latestJob)
      ensures userId.Some? ==> userId.value == Get(originalUser, "id") && alert.None?
      ensures !Truthy(Get(originalUser, "id")) ==> alert == Some(NoUserText)
      ensures Truthy(Get(originalUser, "id")) && !Truthy(latestJob) ==> alert == Some(NoJobText)
      ensures aiLoading == (old(aiLoading) || userId.Some?)
      ensures originalUser == old(originalUser) && translatedUser == old(translatedUser)
      ensures aiData == old(aiData) && latestJob == old(latestJob)
      ensures pdfLoading == old(pdfLoading) && isTranslating == old(isTranslating) && loadingJob == old(loadingJob)
      ensures language == old(language)
    {
      if !Truthy(Get(originalUser, "id")) {
        return None, Some(NoUserText);
      }
      if !Truthy(latestJob) {
        return None, Some(NoJobText);
      }
      aiLoading := true;
      userId, alert := Some(Get(originalUser, "id")), None;
    }

    /** `handleAiGenerate` after its request; `job` is the latest job as the
        handler saw it when it started. A truthy answer becomes the
        normalised AI result, the cached translation is dropped (so the
        preview shows the original user again) and the success alert names
        the job; a failure alerts. The flag is cleared on every path. */
    method FinishAiGenerate(job: Json, result: Result<Json, Json>) returns (alert: Option<string>)
      modifies this
      ensures !aiLoading
      ensures result.Ok? && Truthy(result.value) ==>
        && aiData == Obj(NormalizedAi(AiBody(result.value), job))
        && translatedUser == Null
        && Preview() == (if Truthy(originalUser) then Some(originalUser) else None)
        && alert == Some(AiSuccessText(job))
      ensures result.Ok? && !Truthy(result.value) ==>
        aiData == old(aiData) && translatedUser == old(translatedUser) && alert.None?
      ensures result.Err? ==>
        aiData == old(aiData) && translatedUser == old(translatedUser) &&
        alert == Some(AiFailureText(detailedAiErrors, result.error))
      ensures originalUser == old(originalUser) && latestJob == old(latestJob)
      ensures pdfLoading == old(pdfLoading) && isTranslating == old(isTranslating) && loadingJob == old(loadingJob)
      ensures language == old(language)
    {
      alert := None;
      match result {
        case Ok(data) =>
          if Truthy(data) {
            aiData := Obj(NormalizedAi(AiBody(data), job));
            translatedUser := Null;
            alert := Some(AiSuccessText(job));
          }
        case Err(err) =>
          alert := Some(AiFailureText(detailedAiErrors, err));
      }
      aiLoading := false;
    }

    /** `handleExportPDF` up to the PDF call: nothing without a user;
        otherwise the flag is set and the data to print is chosen. */
    method StartExport() returns (data: Option<Json>)
      modifies this
      ensures data.Some? <==> Truthy(originalUser)
      ensures data.Some? ==> data.value == ExportData(language, translatedUser, aiData, originalUser)
      ensures pdfLoading == (old(pdfLoading) || data.Some?)
      ensures originalUser == old(originalUser) && translatedUser == old(translatedUser)
      ensures aiData == old(aiData) && latestJob == old(latestJob)
      ensures aiLoading == old(aiLoading) && isTranslating == old(isTranslating) && loadingJob == old(loadingJob)
      ensures language == old(language)
    {
      if !Truthy(originalUser) {
        return None;
      }
      pdfLoading := true;
      data := Some(ExportData(language, translatedUser, aiData, originalUser));
    }

    /** `handleExportPDF` after the PDF call: an alert when it failed; the
        flag is cleared either way. */
    method FinishExport(generated: bool) returns (alert: Option<string>)
      modifies this
      ensures !pdfLoading
      ensures alert.Some? <==> !generated
      ensures alert.Some? ==> alert.value == ExportFailedText
      ensures originalUser == old(originalUser) && translatedUser == old(translatedUser)
      ensures aiData == old(aiData) && latestJob == old(latestJob)
      ensures aiLoading == old(aiLoading) && isTranslating == old(isTranslating) && loadingJob == old(loadingJob)
      ensures language == old(language)
    {
      pdfLoading := false;
      alert := if generated then None else Some(ExportFailedText);
    }

    /** What the page renders: the loading screen (None) until there is a
        user, then the preview of the translation while English is chosen
        and one is cached, of the original user otherwise. */
    function Preview(): (r: Option<Json>)
      reads this
      ensures r.None? <==> !Truthy(originalUser)
      ensures r.Some? ==> r.value == PreviewUser(language, translatedUser, originalUser)
    {
      if Truthy(originalUser) then Some(PreviewUser(language, translatedUser, originalUser)) else None
    }
  }
}
