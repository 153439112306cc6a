/** The request helpers of the earlier front end (services/api.js), where
    they differ from Api: a `getUser` without a `try`, a `getUserId` that
    uses `||`, a request interceptor that can throw, a `generateCV` with no
    id guard and another job-id test, and the health check over three
    services. `setUser`, `removeUser`, `isLoggedIn`, the response
    interceptor and `handleApiError` are the same as in Api. */
module LegacyApi {

  import opened Wrappers
  import opened Json
  import opened Storage
  import Api

  /** The instance-wide timeout, which `generateCV` does not override. */
  const DefaultTimeout: nat := 120000

  // ---- the stored user ----

  /** `userManager.getUser`: `null` when nothing (or the empty text) is
      stored; None when the stored text does not parse, where `JSON.parse`
      throws out of the call. */
  function GetUser(items: Items): (r: Option<Json>)
    ensures !Present(Api.UserText(items)) ==> r == Some(Null)
    ensures Present(Api.UserText(items)) ==> r == Parse(items[Api.UserKey])
  {
    var t := Api.UserText(items);
    if !Present(t) then Some(Null) else Parse(t.value)
  }

  /** `userManager.getToken`: `getUser()?.token`. */
  function GetToken(items: Items): (r: Option<Json>)
    ensures r.Some? <==> GetUser(items).Some?
    ensures r.Some? ==> r.value == Get(GetUser(items).value, "token")
  {
    match GetUser(items)
    case Some(u) => Some(Get(u, "token"))
    case None => None
  }

  /** `userManager.getUserId`: `user?.id || null`. */
  function GetUserId(items: Items): (r: Option<Json>)
    ensures r.Some? <==> GetUser(items).Some?
    ensures r.Some? && Truthy(Get(GetUser(items).value, "id")) ==> r.value == Get(GetUser(items).value, "id")
    ensures r.Some? && !Truthy(Get(GetUser(items).value, "id")) ==> r.value == Null
  {
    match GetUser(items)
    case Some(u) => Some(Or(Get(u, "id"), Null))
    case None => None
  }

  /** Wherever the stored user parses, both copies read it alike, except
      that this one turns a falsy id (0 among them) into `null`. */
  lemma GetUserAgrees(items: Items)
    requires GetUser(items).Some?
    ensures GetUser(items).value == Api.GetUser(items)
    ensures GetToken(items).value == Api.GetToken(items)
    ensures Truthy(Api.GetUserId(items)) ==> GetUserId(items).value == Api.GetUserId(items)
  {
  }

  /** A stored id of 0 is 0 for the current copy and `null` here. */
  lemma ZeroIdDropped(items: Items)
    requires Api.GetUser(items).Obj? && Get(Api.GetUser(items), "id") == Num(0.0)
    ensures Api.GetUserId(items) == Num(0.0)
    ensures GetUserId(items) == Some(Null)
  {
  }

  /** After `setUser(undefined)` the current copy reads `null` and this one
      throws. */
  lemma UndefinedUserThrows(items: Items)
    ensures var after := items[Api.UserKey := Stringify(Undefined)];
      Api.GetUser(after) == Null && GetUser(after).None?
  {
  }

  // ---- request interceptor ----

  /** The request interceptor: the stored text, or `{}` when there is
      none, is parsed and its token, if truthy, becomes the bearer header.
      False where it throws and the request fails: text that does not
      parse, a stored `null` (reading `token` of `null`), or a token with
      no headers object to put it in. */
  method AuthorizeRequest(store: LocalStorage, config: Api.RequestConfig) returns (ok: bool)
    modifies config
    ensures var t := Api.UserText(store.items);
      var user := if Present(t) then Parse(t.value) else Some(Obj(map[]));
      && (ok <==> user.Some? && !Nullish(user.value) &&
                   (Truthy(Get(user.value, "token")) ==> old(config.headers).Some?))
      && (ok && Truthy(Get(user.value, "token")) ==>
            config.headers == Some(old(config.headers).value["Authorization" := Api.BearerHeader(Get(user.value, "token"))]))
      && (!(ok && Truthy(Get(user.value, "token"))) ==> config.headers == old(config.headers))
  {
    var t := Api.UserText(store.items);
    var user := if Present(t) then Parse(t.value) else Some(Obj(map[]));
    if user.None? || Nullish(user.value) {
      return false;
    }
    var token := Get(user.value, "token");
    if Truthy(token) {
      if config.headers.None? {
        return false;
      }
      config.headers := Some(config.headers.value["Authorization" := Api.BearerHeader(token)]);
    }
    ok := true;
  }

  /** The earlier interceptor sends the same bearer header as the current
      one wherever the stored text parses to an object: the two differ
      only on text that does not parse, on a stored `null`, and on missing
      headers. */
  lemma SameTokenAsCurrent(items: Items)
    requires Present(Api.UserText(items)) && items[Api.UserKey].JsonText? && items[Api.UserKey].value.Obj?
    ensures Get(items[Api.UserKey].value, "token") == Api.GetToken(items)
  {
  }

  // ---- requests ----

  /** `cvAPI.generateCV(userId, jobId)`: no id guard, the id goes into the
      header as given, and the job id is sent unless it is `null`,
      `undefined` or 0. */
  function GenerateCvRequest(userId: Json, jobId: Json): (r: Api.CvRequest)
    ensures "jobId" in r.params <==> !Nullish(jobId) && jobId != Num(0.0)
    ensures r.params.Keys <= {"jobId"}
    ensures "jobId" in r.params ==> r.params["jobId"] == jobId
    ensures r.userHeader == userId && r.timeout == DefaultTimeout
  {
    var params: map<string, Json> := if !Nullish(jobId) && jobId != Num(0.0) then map["jobId" := jobId] else map[];
    Api.CvRequest(params, userId, DefaultTimeout)
  }

  /** The two copies disagree on falsy job ids other than `null`,
      `undefined` and 0: the empty string and `false` are sent here and
      dropped by the current copy. */
  lemma FalsyJobIdsDiffer(items: Items, userId: Json, jobId: Json)
    requires Truthy(userId)
    requires jobId == Str("") || jobId == Bool(false)
    ensures "jobId" in GenerateCvRequest(userId, jobId).params
    ensures "jobId" !in Api.GenerateCvRequest(items, userId, jobId).value.params
  {
  }

  // ---- health check ----

  /** One outcome of `Promise.allSettled`. */
  datatype Settled = Fulfilled(value: Json) | Rejected(reason: Json)

  /** One row of the health report. */
  datatype HealthEntry = HealthEntry(service: string, status: string, data: Json)

  const Services: seq<string> := ["Auth", "User", "Analysis"]

  /** Whether mapping the outcome throws: `res.value.data` of a nullish
      value or `res.reason.message` of a nullish reason. */
  predicate Throws(s: Settled) {
    match s
    case Fulfilled(v) => Nullish(v)
    case Rejected(e) => Nullish(e)
  }

  /** The row for one service: UP with the response data, or DOWN with the
      error message. */
  function Entry(service: string, s: Settled): (e: HealthEntry)
    ensures e.service == service
    ensures e.status == "UP" <==> s.Fulfilled?
    ensures e.status == "UP" || e.status == "DOWN"
    ensures s.Fulfilled? ==> e.data == Get(s.value, "data")
    ensures s.Rejected? ==> e.data == Get(s.reason, "message")
  {
    match s
    case Fulfilled(v) => HealthEntry(service, "UP", Get(v, "data"))
    case Rejected(e) => HealthEntry(service, "DOWN", Get(e, "message"))
  }

  /** `healthAPI.checkAll` after its three checks settled (Auth, User,
      Analysis, in that order): one row per service in that order; None
      where building a row throws. */
  function CheckAll(results: seq<Settled>): (r: Option<seq<HealthEntry>>)
    requires |results| == 3
    ensures r.None? <==> exists i :: 0 <= i < 3 && Throws(results[i])
    ensures r.Some? ==> |r.value| == 3 && forall i :: 0 <= i < 3 ==>
      && r.value[i].service == Services[i]
      && (r.value[i].status == "UP" <==> results[i].Fulfilled?)
  {
    if exists i :: 0 <= i < 3 && Throws(results[i]) then None
    else Some(seq(3, i requires 0 <= i < 3 => Entry(Services[i], results[i])))
  }
}
