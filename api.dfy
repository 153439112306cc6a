/** The request helpers of the current front end
    (cv-builder-frontend/src/services/api.js): the `userManager` over the
    stored "user" entry, the request interceptor that adds the bearer
    token, the response interceptor that forgets the user on a 401, the
    request `generateCV` and `performMarketAnalysis` build, and the error
    classification `handleApiError`, which the earlier copy of the file
    shares word for word. */
module Api {

  import opened Wrappers
  import opened Json
  import opened Storage
  import Numbers
  import Text

  const UserKey := "user"
  const NetworkErrorText := "Backend erişilemiyor."
  const NoServerText := "Sunucuya ulaşılamadı"
  const MissingUserIdText := "Kullanıcı ID'si bulunamadı"
  /** The five-minute timeout of `generateCV`, in milliseconds. */
  const CvTimeout: nat := 300000

  // ---- the stored user ----

  /** `localStorage.getItem("user")`. */
  function UserText(items: Items): Option<StoredText> {
    if UserKey in items then Some(items[UserKey]) else None
  }

  /** `userManager.getUser`: `null` when nothing (or the empty text) is
      stored and when the stored text does not parse. */
  function GetUser(items: Items): (r: Json)
    ensures !Present(UserText(items)) ==> r == Null
    ensures Present(UserText(items)) && items[UserKey].JsonText? ==> r == items[UserKey].value
    ensures Present(UserText(items)) && items[UserKey].Garbage? ==> r == Null
  {
    var t := UserText(items);
    if !Present(t) then Null
    else match Parse(t.value)
      case Some(v) => v
      case None => Null
  }

  /** `userManager.getToken`: `getUser()?.token`. */
  function GetToken(items: Items): (r: Json)
    ensures !GetUser(items).Obj? || "token" !in GetUser(items).fields ==> r == Undefined
    ensures GetUser(items).Obj? && "token" in GetUser(items).fields ==> r == GetUser(items).fields["token"]
    ensures !Present(UserText(items)) ==> r == Undefined
  {
    Get(GetUser(items), "token")
  }

  /** `userManager.getUserId`: `getUser()?.id ?? null`. */
  function GetUserId(items: Items): (r: Json)
    ensures Nullish(Get(GetUser(items), "id")) ==> r == Null
    ensures !Nullish(Get(GetUser(items), "id")) ==> r == Get(GetUser(items), "id")
  {
    Coalesce(Get(GetUser(items), "id"), Null)
  }

  /** `userManager.isLoggedIn`: some non-empty text is stored. */
  predicate IsLoggedIn(items: Items): (r: bool)
    ensures r <==> UserKey in items && items[UserKey] != Garbage("")
  {
    Present(UserText(items))
  }

  /** `userManager.setUser`. */
  method SetUser(store: LocalStorage, u: Json)
    modifies store
    ensures store.items == old(store.items)[UserKey := Stringify(u)]
    ensures IsLoggedIn(store.items)
  {
    store.SetItem(UserKey, Stringify(u));
  }

  /** `userManager.removeUser`. */
  method RemoveUser(store: LocalStorage)
    modifies store
    ensures store.items == old(store.items) - {UserKey}
    ensures !IsLoggedIn(store.items)
  {
    store.RemoveItem(UserKey);
  }

  /** After `setUser(u)` the user is logged in and `getUser` returns the
      JSON copy of `u`; `undefined` is stored as a text that does not
      parse, so it reads back as `null`. */
  lemma SetUserThenGet(items: Items, u: Json)
    ensures var after := items[UserKey := Stringify(u)];
      && IsLoggedIn(after)
      && GetUser(after) == (if u.Undefined? then Null else DeepCopy(u))
  {
  }

  /** After `removeUser` nobody is logged in, and the user, the token and
      the id all read as absent. */
  lemma RemoveUserThenGet(items: Items)
    ensures var after := items - {UserKey};
      && !IsLoggedIn(after)
      && GetUser(after) == Null && GetToken(after) == Undefined && GetUserId(after) == Null
  {
    assert UserText(items - {UserKey}).None?;
  }

  /** `??` keeps a stored id of 0. */
  lemma GetUserIdKeepsZero(items: Items)
    requires Get(GetUser(items), "id") == Num(0.0)
    ensures GetUserId(items) == Num(0.0)
  {
  }

  // ---- interceptors ----

  /** The part of an outgoing request the interceptors touch: its headers
      (None while there are none). */
  class RequestConfig {
    var headers: Option<map<string, Json>>

    constructor (headers: Option<map<string, Json>>)
      ensures this.headers == headers
    {
      this.headers := headers;
    }
  }

  /** The `Authorization` header value for a token. */
  function BearerHeader(token: Json): (r: Json)
    ensures r.Str? && |r.s| >= 7 && r.s[..7] == "Bearer "
  {
    Str("Bearer " + Numbers.ToJsString(token))
  }

  /** The request interceptor: with a stored token the headers (created if
      missing) get the bearer header and keep every other header; without
      one the request goes out as it was. */
  method AuthorizeRequest(store: LocalStorage, config: RequestConfig)
    modifies config
    ensures Truthy(GetToken(store.items)) ==>
      config.headers == Some(old(config.headers).GetOr(map[])["Authorization" := BearerHeader(GetToken(store.items))])
    ensures !Truthy(GetToken(store.items)) ==> config.headers == old(config.headers)
  {
    var token := GetToken(store.items);
    if Truthy(token) {
      var headers := config.headers.GetOr(map[]);
      config.headers := Some(headers["Authorization" := BearerHeader(token)]);
    }
  }

  /** The response error interceptor (the same in both copies of the
      file): a 401 forgets the stored user; the error is rejected again
      either way. */
  method RejectResponse(store: LocalStorage, error: Json) returns (rejection: Json)
    modifies store
    ensures rejection == error
    ensures Get(Get(error, "response"), "status") == Num(401.0) ==> store.items == old(store.items) - {UserKey}
    ensures Get(Get(error, "response"), "status") != Num(401.0) ==> store.items == old(store.items)
  {
    if Get(Get(error, "response"), "status") == Num(401.0) {
      RemoveUser(store);
    }
    rejection := error;
  }

  // ---- requests ----

  /** What a `generateCV` request carries besides its path: the query
      parameters, the `X-USER-ID` header and its timeout. */
  datatype CvRequest = CvRequest(params: map<string, Json>, userHeader: Json, timeout: nat)

  /** `cvAPI.generateCV(userId, jobId)`: the id is the given one or else
      the stored one; without either the call rejects before any request.
      The job id is sent only when truthy, and the header holds the id as a
      string. */
  function GenerateCvRequest(items: Items, userId: Json, jobId: Json): (r: Result<CvRequest, string>)
    ensures r.Err? <==> !Truthy(userId) && !Truthy(GetUserId(items))
    ensures r.Err? ==> r.error == MissingUserIdText
    ensures r.Ok? ==>
      && ("jobId" in r.value.params <==> Truthy(jobId))
      && r.value.params.Keys <= {"jobId"}
      && ("jobId" in r.value.params ==> r.value.params["jobId"] == jobId)
      && r.value.userHeader == Str(Numbers.ToJsString(if Truthy(userId) then userId else GetUserId(items)))
      && r.value.timeout == CvTimeout
  {
    var uid := Or(userId, GetUserId(items));
    if !Truthy(uid) then Err(MissingUserIdText)
    else
      var params: map<string, Json> := if Truthy(jobId) then map["jobId" := jobId] else map[];
      Ok(CvRequest(params, Str(Numbers.ToJsString(uid)), CvTimeout))
  }

  /** What a market-analysis request carries: the body's `area` and the
      `X-USER-ID` header. */
  datatype MarketRequest = MarketRequest(area: string, userHeader: Json)

  /** `jobAPI.performMarketAnalysis(area, userId)`: the area is trimmed,
      with `null` and `undefined` sent as ""; an area that is not a string
      has no `trim` and the call throws (None). */
  function MarketAnalysisRequest(items: Items, area: Json, userId: Json): (r: Option<MarketRequest>)
    ensures r.Some? <==> Nullish(area) || area.Str?
    ensures r.Some? ==> r.value.userHeader == Or(userId, GetUserId(items))
    ensures Nullish(area) ==> r.Some? && r.value.area == ""
    ensures area.Str? ==> r.Some? && r.value.area == Text.Trim(area.s)
  {
    var a := Coalesce(area, Str(""));
    if a.Str? then Some(MarketRequest(Text.Trim(a.s), Or(userId, GetUserId(items)))) else None
  }

  /** The area sent never starts or ends with white space, and trimming it
      again changes nothing. */
  lemma MarketAreaTrimmed(items: Items, area: Json, userId: Json)
    requires MarketAnalysisRequest(items, area, userId).Some?
    ensures var a := MarketAnalysisRequest(items, area, userId).value.area;
      && (a == [] || (!Text.IsSpace(a[0]) && !Text.IsSpace(a[|a| - 1])))
      && Text.Trim(a) == a
  {
    if area.Str? {
      Text.TrimIdempotent(area.s);
    }
  }

  // ---- errors ----

  /** What `handleApiError` returns. */
  datatype ErrorResult = ErrorResult(success: bool, message: Json, status: Json)

  /** `handleApiError(error)`: a network failure (code ERR_NETWORK or
      status 0) gets the fixed NETWORK_ERROR result; otherwise the message
      is the server's message, else the error's own, else a fixed text,
      and the status is the response status or UNKNOWN_ERROR. None where
      reading `error.response` throws (a `null` or `undefined` error). */
  function HandleApiError(error: Json): (r: Option<ErrorResult>)
    ensures r.None? <==> Nullish(error)
    ensures r.Some? ==> !r.value.success
    ensures var status := Get(Get(error, "response"), "status");
      r.Some? && (Get(error, "code") == Str("ERR_NETWORK") || status == Num(0.0)) ==>
        r.value == ErrorResult(false, Str(NetworkErrorText), Str("NETWORK_ERROR"))
    ensures var status := Get(Get(error, "response"), "status");
      r.Some? && !(Get(error, "code") == Str("ERR_NETWORK") || status == Num(0.0)) ==>
        && r.value.message == Or(Or(Get(Get(Get(error, "response"), "data"), "message"), Get(error, "message")), Str(NoServerText))
        && r.value.status == Or(status, Str("UNKNOWN_ERROR"))
  {
    if Nullish(error) then None
    else
      var msg := Or(Or(Get(Get(Get(error, "response"), "data"), "message"), Get(error, "message")), Str(NoServerText));
      var status := Get(Get(error, "response"), "status");
      if Get(error, "code") == Str("ERR_NETWORK") || status == Num(0.0) then
        Some(ErrorResult(false, Str(NetworkErrorText), Str("NETWORK_ERROR")))
      else
        Some(ErrorResult(false, msg, Or(status, Str("UNKNOWN_ERROR"))))
  }

  /** A classified error always has something to show: its message and its
      status are both truthy, since a status of 0 is a network failure. */
  lemma {:induction false} HandleApiErrorInformative(error: Json)
    requires !Nullish(error)
    ensures var r := HandleApiError(error).value;
      Truthy(r.message) && Truthy(r.status) && !r.success
  {
    var status := Get(Get(error, "response"), "status");
    if !(Get(error, "code") == Str("ERR_NETWORK") || status == Num(0.0)) {
      assert Truthy(Str(NoServerText));
      assert Truthy(Str("UNKNOWN_ERROR"));
    }
  }
}
