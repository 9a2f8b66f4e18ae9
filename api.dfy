/** The REST client: every backend call the dashboard makes, and the
    `fetch` request each one becomes (URL, method, headers and JSON body). */
module Api {
  import opened Js
  import opened Text

  /** A method a request sets explicitly; a request that sets none is a GET. */
  datatype HttpMethod = Post | Put | Delete

  /** The verdict sent when verifying a daycare or elder-care provider. */
  datatype VerifyStatus = Approved | Rejected

  function VerifyStatusName(s: VerifyStatus): string {
    match s
    case Approved => "approved"
    case Rejected => "rejected"
  }

  datatype ProviderKind = Daycare | ElderCare

  /** The path segment of each provider kind. */
  function KindSegment(k: ProviderKind): string {
    match k
    case Daycare => "daycare"
    case ElderCare => "eldercare"
  }

  /** One entry of the `api` object with its arguments. The daycare and
      elder-care entries, which differ only in their path segment, are one
      constructor with a `kind`: `getPendingDaycares()` is
      `GetPendingProviders(Daycare)`, `verifyElderCare(...)` is
      `VerifyProvider(ElderCare, ...)`, `getDaycareProviders(p)` is
      `GetProviders(Daycare, p)`. An argument typed `string?` and left out is `None`. */
  datatype Call =
    | Login(phoneNumber: string, pin: string)
    | CreateAdmin(adminId: string, adminData: map<string, JsonValue>)
    | GetStats
    | GetUsers(params: Option<string>)
    | GetUser(id: string)
    | UpdateUser(id: string, userData: JsonValue)
    | VerifyNanny(id: string, approved: bool)
    | DeleteUser(id: string)
    | ToggleUserStatus(id: string)
    | GetBookings(params: Option<string>)
    | GetBooking(id: string)
    | UpdateBookingStatus(id: string, status: string, reason: Option<string>)
    | GetReviews(params: Option<string>)
    | GetPendingProviders(kind: ProviderKind)
    | VerifyProvider(kind: ProviderKind, id: string, verdict: VerifyStatus,
                     rejectionReason: Option<string>, adminEstimatedPrice: Option<JsNumber>)
    | GetProviders(kind: ProviderKind, params: Option<string>)
    | SendNotification(userId: string, title: string, body: string, data: Option<JsonValue>)
    | BroadcastNotification(title: string, body: string, role: Option<string>)

  /** The calls that only read: every getter. */
  predicate IsQuery(c: Call) {
    c.GetStats? || c.GetUsers? || c.GetUser? || c.GetBookings? || c.GetBooking?
    || c.GetReviews? || c.GetPendingProviders? || c.GetProviders?
  }

  /** The `options` an entry passes to `apiFetch`; `body` is the object given to `JSON.stringify`. */
  datatype RequestInit = RequestInit(httpMethod: Option<HttpMethod>, body: Option<JsonValue>, headers: map<string, string>)

  /** The arguments `apiFetch` passes to `fetch`. */
  datatype FetchRequest = FetchRequest(url: string, httpMethod: Option<HttpMethod>, body: Option<JsonValue>, headers: map<string, string>)

  const ContentType := "Content-Type"
  const Json := "application/json"

  /** `apiFetch(endpoint, options)`: the URL is the base URL followed by the
      endpoint; the JSON content type is always set and a header the caller
      passes replaces it. */
  function ApiFetch(baseUrl: string, endpoint: string, init: RequestInit): (r: FetchRequest)
    ensures r.url == baseUrl + endpoint
    ensures r.httpMethod == init.httpMethod && r.body == init.body
    ensures r.headers.Keys == init.headers.Keys + {ContentType}
    ensures r.headers[ContentType] == if ContentType in init.headers then init.headers[ContentType] else Json
    ensures forall h :: h in init.headers ==> r.headers[h] == init.headers[h]
  {
    FetchRequest(baseUrl + endpoint, init.httpMethod, init.body, map[ContentType := Json] + init.headers)
  }

  /** `${params ? `?${params}` : ''}`. */
  function QuerySuffix(params: Option<string>): (r: string)
    ensures Truthy(params) ==> r == "?" + params.value
    ensures !Truthy(params) ==> r == ""
  {
    if Truthy(params) then "?" + params.value else ""
  }

  /** The path of a list getter before its query string. */
  function ListPath(c: Call): string
    requires c.GetUsers? || c.GetBookings? || c.GetReviews? || c.GetProviders?
  {
    match c
    case GetUsers(_) => "/admin/users"
    case GetBookings(_) => "/admin/bookings"
    case GetReviews(_) => "/admin/reviews"
    case GetProviders(k, _) => "/providers/" + KindSegment(k)
  }

  /** The endpoint of each call. */
  function Endpoint(c: Call): string {
    match c
    case Login(_, _) => "/admin/login"
    case CreateAdmin(_, _) => "/admin/create"
    case GetStats => "/admin/stats"
    case GetUsers(p) => "/admin/users" + QuerySuffix(p)
    case GetUser(id) => "/admin/users/" + id
    case UpdateUser(id, _) => "/admin/users/" + id
    case VerifyNanny(id, _) => "/admin/users/" + id + "/verify-nanny"
    case DeleteUser(id) => "/admin/users/" + id
    case ToggleUserStatus(id) => "/admin/users/" + id + "/toggle-status"
    case GetBookings(p) => "/admin/bookings" + QuerySuffix(p)
    case GetBooking(id) => "/admin/bookings/" + id
    case UpdateBookingStatus(id, _, _) => "/admin/bookings/" + id + "/status"
    case GetReviews(p) => "/admin/reviews" + QuerySuffix(p)
    case GetPendingProviders(k) => "/providers/" + KindSegment(k) + "/pending/list"
    case VerifyProvider(k, id, _, _, _) => "/providers/" + KindSegment(k) + "/" + id + "/verify"
    case GetProviders(k, p) => "/providers/" + KindSegment(k) + QuerySuffix(p)
    case SendNotification(_, _, _, _) => "/notifications/send-to-user"
    case BroadcastNotification(_, _, role) =>
      if Truthy(role) then "/notifications/send-to-role" else "/notifications/broadcast"
  }

  /** The JSON body of each call that sends one; `undefined` members are
      left out, as `JSON.stringify` leaves them out. */
  function Body(c: Call): (b: Option<JsonValue>)
    ensures b.None? <==> IsQuery(c) || c.DeleteUser? || c.ToggleUserStatus?
    ensures b.Some? && !c.UpdateUser? ==> b.value.JObject?
  {
    match c
    case Login(phone, pin) =>
      Some(JObject(map["phoneNumber" := JStr(phone), "pin" := JStr(pin)]))
    case CreateAdmin(adminId, data) =>
      Some(JObject(map["adminId" := JStr(adminId)] + data))
    case UpdateUser(_, data) => Some(data)
    case VerifyNanny(_, approved) => Some(JObject(map["approved" := JBool(approved)]))
    case UpdateBookingStatus(_, status, reason) =>
      Some(JObject(map["status" := JStr(status)] + Field("reason", OptStr(reason))))
    case VerifyProvider(_, _, status, reason, price) =>
      Some(JObject(map["status" := JStr(VerifyStatusName(status))]
                   + Field("rejectionReason", OptStr(reason))
                   + Field("adminEstimatedPrice", if price.Some? then Some(FromNumber(price.value)) else None)))
    case SendNotification(userId, title, body, data) =>
      Some(JObject(map["userId" := JStr(userId), "title" := JStr(title), "body" := JStr(body)]
                   + Field("data", data)))
    case BroadcastNotification(title, body, role) =>
      Some(JObject(map["title" := JStr(title), "body" := JStr(body)] + Field("role", OptStr(role))))
    case _ => None
  }

  /** The method of each call: POST for login, admin creation and the
      notifications, DELETE for deleting a user, PUT for every other change,
      and none (a GET) for every getter. */
  function MethodOf(c: Call): (m: Option<HttpMethod>)
    ensures m.None? <==> IsQuery(c)
    ensures m == Some(Delete) <==> c.DeleteUser?
    ensures m == Some(Post) <==> c.Login? || c.CreateAdmin? || c.SendNotification? || c.BroadcastNotification?
  {
    match c
    case Login(_, _) => Some(Post)
    case CreateAdmin(_, _) => Some(Post)
    case UpdateUser(_, _) => Some(Put)
    case VerifyNanny(_, _) => Some(Put)
    case DeleteUser(_) => Some(Delete)
    case ToggleUserStatus(_) => Some(Put)
    case UpdateBookingStatus(_, _, _) => Some(Put)
    case VerifyProvider(_, _, _, _, _) => Some(Put)
    case SendNotification(_, _, _, _) => Some(Post)
    case BroadcastNotification(_, _, _) => Some(Post)
    case _ => None
  }

  /** The options each entry passes; no entry passes headers of its own. */
  function Init(c: Call): (r: RequestInit)
    ensures r.headers == map[]
    ensures r.body.None? <==> IsQuery(c) || c.DeleteUser? || c.ToggleUserStatus?
  {
    RequestInit(MethodOf(c), Body(c), map[])
  }

  /** The `fetch` request a call issues against the backend at `baseUrl`. */
  function Request(baseUrl: string, c: Call): (r: FetchRequest)
    ensures r.url == baseUrl + Endpoint(c)
    ensures r.headers == map[ContentType := Json]
    ensures r.httpMethod.None? <==> IsQuery(c)
  {
    ApiFetch(baseUrl, Endpoint(c), Init(c))
  }

  /** A list getter appends `?params` exactly when params is a non-empty string. */
  lemma ListQueryAppended(c: Call)
    requires c.GetUsers? || c.GetBookings? || c.GetReviews? || c.GetProviders?
    ensures StartsWith(Endpoint(c), ListPath(c))
    ensures '?' !in ListPath(c)
    ensures '?' in Endpoint(c) <==> Truthy(c.params)
    ensures Truthy(c.params) ==> Endpoint(c)[|ListPath(c)| + 1..] == c.params.value
  {
    assert Endpoint(c) == ListPath(c) + QuerySuffix(c.params);
    ListPathPlain(c);
    SuffixAppended(ListPath(c), c.params);
  }

  lemma ListPathPlain(c: Call)
    requires c.GetUsers? || c.GetBookings? || c.GetReviews? || c.GetProviders?
    ensures '?' !in ListPath(c)
  {
    if c.GetProviders? {
      var k := KindSegment(c.kind);
      assert '?' !in k;
      assert ListPath(c) == "/providers/" + k;
    }
  }

  lemma SuffixAppended(path: string, params: Option<string>)
    requires '?' !in path
    ensures StartsWith(path + QuerySuffix(params), path)
    ensures '?' in path + QuerySuffix(params) <==> Truthy(params)
    ensures Truthy(params) ==> (path + QuerySuffix(params))[|path| + 1..] == params.value
  {
    var e := path + QuerySuffix(params);
    assert e[..|path|] == path;
    if Truthy(params) {
      assert e[|path|] == '?';
      assert e[|path| + 1..] == params.value;
    } else {
      assert e == path;
    }
  }

  /** `broadcastNotification` goes to the role endpoint exactly when a
      non-empty role is given; its body carries the title, the body, and the
      role whenever one is defined (an empty role included). */
  lemma BroadcastRouting(title: string, body: string, role: Option<string>)
    ensures var c := BroadcastNotification(title, body, role);
      && (Endpoint(c) == "/notifications/send-to-role" <==> Truthy(role))
      && (Endpoint(c) == "/notifications/broadcast" <==> !Truthy(role))
      && MethodOf(c) == Some(Post)
      && Body(c).Some? && Body(c).value.JObject?
      && var f := Body(c).value.fields;
      && f["title"] == JStr(title) && f["body"] == JStr(body)
      && ("role" in f <==> role.Some?)
      && (role.Some? ==> f["role"] == JStr(role.value))
  {
  }

  /** Verifying a provider is a PUT to `/providers/{kind}/{id}/verify` with
      `status`, and `rejectionReason` and `adminEstimatedPrice` only when defined. */
  lemma VerifyProviderRequest(k: ProviderKind, id: string, s: VerifyStatus,
                              reason: Option<string>, price: Option<JsNumber>)
    ensures var c := VerifyProvider(k, id, s, reason, price);
      && Endpoint(c) == "/providers/" + KindSegment(k) + "/" + id + "/verify"
      && MethodOf(c) == Some(Put)
      && Body(c).Some? && Body(c).value.JObject?
      && var f := Body(c).value.fields;
      && f.Keys <= {"status", "rejectionReason", "adminEstimatedPrice"}
      && f["status"] == JStr(VerifyStatusName(s))
      && ("rejectionReason" in f <==> reason.Some?)
      && (reason.Some? ==> f["rejectionReason"] == JStr(reason.value))
      && ("adminEstimatedPrice" in f <==> price.Some?)
      && (price == Some(NaN) ==> f["adminEstimatedPrice"] == JNull)
      && (price.Some? && price.value.Num? ==> f["adminEstimatedPrice"] == JNum(price.value.n))
  {
  }

  /** `updateBookingStatus` is a PUT to `/admin/bookings/{id}/status` with
      `status`, and `reason` only when one is given. */
  lemma UpdateBookingStatusRequest(id: string, status: string, reason: Option<string>)
    ensures var c := UpdateBookingStatus(id, status, reason);
      && Endpoint(c) == "/admin/bookings/" + id + "/status"
      && MethodOf(c) == Some(Put)
      && Body(c).Some? && Body(c).value.JObject?
      && var f := Body(c).value.fields;
      && f.Keys == {"status"} + (if reason.Some? then {"reason"} else {})
      && f["status"] == JStr(status)
      && (reason.Some? ==> f["reason"] == JStr(reason.value))
  {
  }

  /** The admin-creation body is `{ adminId, ...data }`: every member of
      `data` is sent as given, overriding `adminId` on a clash. */
  lemma CreateAdminBody(adminId: string, data: map<string, JsonValue>)
    ensures var c := CreateAdmin(adminId, data);
      && Body(c).Some? && Body(c).value.JObject?
      && var f := Body(c).value.fields;
      && f.Keys == data.Keys + {"adminId"}
      && (forall k :: k in data ==> f[k] == data[k])
      && ("adminId" !in data ==> f["adminId"] == JStr(adminId))
  {
  }

  /** Every path of a call is absolute and lies under one of the backend's
      three route groups; the endpoint determines the id-carrying calls' id. */
  lemma EndpointRouteGroups(c: Call)
    ensures StartsWith(Endpoint(c), "/admin/") || StartsWith(Endpoint(c), "/providers/")
         || StartsWith(Endpoint(c), "/notifications/")
    ensures (c.GetUser? || c.DeleteUser? || c.UpdateUser?) ==>
              Endpoint(c)[|"/admin/users/"|..] == c.id
  {
    var e := Endpoint(c);
    if c.GetUsers? || c.GetBookings? || c.GetReviews? || c.GetProviders? {
      ListQueryAppended(c);
      var p := ListPath(c);
      if c.GetProviders? {
        assert e[..|"/providers/"|] == p[..|"/providers/"|];
      } else {
        assert e[..|"/admin/"|] == p[..|"/admin/"|];
      }
    }
  }
}
