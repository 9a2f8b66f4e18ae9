/** The settings page: the signed-in admin, the server's health, and a
    form that creates another admin. */
module Settings {
  import opened Js
  import opened Text
  import opened Http
  import opened Entities
  import opened Browser
  import Api

  /** The outcome line under the form. */
  datatype Flash = Flash(success: bool, message: string)

  /** The health endpoint's reply: its `status`, or a failed fetch. */
  datatype HealthReply = HealthFailed | HealthBody(status: Option<string>)

  /** What the page knows of the server: nothing yet, or a reported status. */
  datatype Health = Unchecked | Reported(status: Option<string>)

  /** The health endpoint: the API base with its first `/api` removed. */
  function HealthUrl(baseUrl: string): (u: string)
    ensures |u| >= 7 && u[|u| - 7..] == "/health"
    ensures !Includes(baseUrl, "/api") ==> u == baseUrl + "/health"
  {
    var u := ReplaceFirst(baseUrl, "/api", "") + "/health";
    if Includes(baseUrl, "/api") then u
    else ReplaceFirstAbsent(baseUrl, "/api", ""); u
  }

  /** For the usual base `<origin>/api`, the health check goes to `<origin>/health`. */
  lemma HealthUrlOfApiBase(origin: string)
    requires !Includes(origin, "/api")
    ensures HealthUrl(origin + "/api") == origin + "/health"
    ensures HealthUrl(origin) == origin + "/health"
  {
    var s := origin + "/api";
    assert OccursAt(s, "/api", |origin|) by { assert s[|origin|..|origin| + 4] == "/api"; }
    forall j | 0 <= j < |origin| ensures !OccursAt(s, "/api", j) {
      if j + 4 <= |origin| {
        assert s[j..j + 4] == origin[j..j + 4];
        assert !OccursAt(origin, "/api", j);
      } else {
        // an occurrence here would put a second '/' inside "/api"
        assert s[|origin|] == '/';
        assert s[j..j + 4][|origin| - j] == s[|origin|];
      }
    }
    ReplaceFirstAt(s, "/api", "", |origin|);
    assert s[..|origin|] == origin;
    assert s[|origin| + 4..] == "";
    ReplaceFirstAbsent(origin, "/api", "");
  }

  /** As written, the first `/api` anywhere in the base is removed, so a
      host whose name starts with `api` loses that part of the host and
      keeps its `/api` path. */
  lemma HealthUrlHostCounterexample()
    ensures HealthUrl("https://api.io/api") == "https:/.io/api/health"
  {
    HostSegmentRemoved();
  }

  /** The first `/api` of `https://api.io/api` is the one after `https:/`. */
  lemma HostSegmentRemoved()
    ensures ReplaceFirst("https://api.io/api", "/api", "") == "https:/.io/api"
  {
    var s := "https://api.io/api";
    assert OccursAt(s, "/api", 7) by { assert s[7..11] == "/api"; }
    assert s[..7] == "https:/" && s[7] == '/';
    forall j | 0 <= j < 7 ensures !OccursAt(s, "/api", j) {
      if j < 6 {
        assert s[j..j + 4][0] == s[..7][j];
      } else {
        assert s[j..j + 4][1] == s[7];
      }
    }
    ReplaceFirstAt(s, "/api", "", 7);
    assert s[..7] + "" + s[11..] == "https:/.io/api";
  }

  /** The health endpoint as intended: the server's origin, the API base
      with its trailing `/api` segment removed. */
  function CorrectedHealthUrl(baseUrl: string): (u: string)
    ensures !EndsWithApi(baseUrl) ==> u == baseUrl + "/health"
  {
    if EndsWithApi(baseUrl) then baseUrl[..|baseUrl| - 4] + "/health" else baseUrl + "/health"
  }

  predicate EndsWithApi(s: string) {
    |s| >= 4 && s[|s| - 4..] == "/api"
  }

  /** For every origin, the corrected endpoint of `<origin>/api` is
      `<origin>/health`; it agrees with the code as written whenever the
      origin itself holds no `/api`. */
  lemma CorrectedHealthUrlOfApiBase(origin: string)
    ensures CorrectedHealthUrl(origin + "/api") == origin + "/health"
    ensures !Includes(origin, "/api") ==> CorrectedHealthUrl(origin + "/api") == HealthUrl(origin + "/api")
  {
    var s := origin + "/api";
    assert s[|s| - 4..] == "/api";
    assert s[..|s| - 4] == origin;
    if !Includes(origin, "/api") {
      HealthUrlOfApiBase(origin);
    }
  }

  /** The status dot is green exactly when the server reported `ok`. */
  predicate ServerOnline(h: Health) {
    h.Reported? && h.status == Some("ok")
  }

  /** The page's knowledge after a health check: the reported status, or
      `error` when the fetch failed, so a failure never reads as online. */
  function HealthAfter(reply: HealthReply): (h: Health)
    ensures h.Reported?
    ensures ServerOnline(h) <==> reply.HealthBody? && reply.status == Some("ok")
    ensures reply.HealthFailed? ==> h.status == Some("error")
  {
    match reply
    case HealthFailed => Reported(Some("error"))
    case HealthBody(s) => Reported(s)
  }

  /** The creation request: the signed-in admin's id with the phone, name,
      email and PIN exactly as typed, empty strings included. */
  function CreateRequest(adminId: string, phone: string, name: string, email: string, pin: string): (c: Api.Call)
    ensures c.CreateAdmin? && Api.MethodOf(c) == Some(Api.Post)
    ensures Api.Body(c) == Some(JObject(map["adminId" := JStr(adminId), "phoneNumber" := JStr(phone),
                                            "name" := JStr(name), "email" := JStr(email), "pin" := JStr(pin)]))
  {
    var data := map["phoneNumber" := JStr(phone), "name" := JStr(name), "email" := JStr(email), "pin" := JStr(pin)];
    assert map["adminId" := JStr(adminId)] + data == map["adminId" := JStr(adminId), "phoneNumber" := JStr(phone),
                                            "name" := JStr(name), "email" := JStr(email), "pin" := JStr(pin)];
    Api.CreateAdmin(adminId, data)
  }

  /** `${data.admin?.name}`: the created admin's name, `undefined` when absent. */
  function NameText(admin: Option<AdminRecord>): string {
    if admin.Some? && admin.value.name.Some? then admin.value.name.value else "undefined"
  }

  /** The outcome of a creation reply. */
  function CreateOutcome(reply: Reply<Option<AdminRecord>>): (f: Flash)
    ensures f.success <==> Succeeded(reply)
    ensures reply.Threw? ==> f.message == "Failed to connect to server"
    ensures Succeeded(reply) ==> f.message == "Admin " + NameText(reply.response.payload) + " created successfully!"
    ensures reply.Replied? && !reply.response.success ==> f.message == OrElse(reply.response.message, "Failed to create admin")
  {
    match reply
    case Threw => Flash(false, "Failed to connect to server")
    case Replied(r) =>
      if r.success then Flash(true, "Admin " + NameText(r.payload) + " created successfully!")
      else Flash(false, OrElse(r.message, "Failed to create admin"))
  }

  class SettingsPage {
    var admin: Option<AdminRecord>
    var serverHealth: Health
    var phone: string
    var name: string
    var email: string
    var pin: string
    var createLoading: bool
    var createResult: Option<Flash>

    constructor()
      ensures admin == None && serverHealth == Unchecked
      ensures phone == "" && name == "" && email == "" && pin == "" && !createLoading && createResult == None
    {
      admin, serverHealth := None, Unchecked;
      phone, name, email, pin := "", "", "", "";
      createLoading, createResult := false, None;
    }

    /** The mount effect: takes the stored admin, then checks the server's
        health. A stored `undefined` makes `JSON.parse` throw, which ends the
        effect before the health check. */
    method Mount(w: Window, baseUrl: string, reply: HealthReply) returns (checked: Option<string>)
      modifies this`admin, this`serverHealth
      ensures var aborted := SessionKey in w.storage && w.storage[SessionKey].StoredUndefined?;
        && (aborted ==> checked.None? && admin == old(admin) && serverHealth == old(serverHealth))
        && (!aborted ==> checked == Some(HealthUrl(baseUrl)) && serverHealth == HealthAfter(reply))
      ensures SessionKey in w.storage && w.storage[SessionKey].StoredAdmin? ==> admin == Some(w.storage[SessionKey].admin)
      ensures SessionKey !in w.storage ==> admin == old(admin)
    {
      if SessionKey in w.storage {
        match w.storage[SessionKey] {
          case StoredUndefined => return None;
          case StoredAdmin(a) => admin := Some(a);
        }
      }
      checked := Some(HealthUrl(baseUrl));
      serverHealth := HealthAfter(reply);
    }

    /** `handleCreateAdmin`. Without a phone or a PIN nothing happens.
        Otherwise the result is cleared and the request sent (without a
        signed-in admin, reading its id throws first, which reads as a
        connection failure); only a success clears the four fields, and
        `createLoading` ends false. */
    method HandleCreateAdmin(reply: Reply<Option<AdminRecord>>) returns (sent: Option<Api.Call>)
      modifies this`phone, this`name, this`email, this`pin, this`createLoading, this`createResult
      ensures var guarded := old(phone) == "" || old(pin) == "";
        && (guarded ==> sent.None? && createResult == old(createResult) && createLoading == old(createLoading))
        && (!guarded && old(admin).None? ==> sent.None? && createResult == Some(CreateOutcome(Threw)) && !createLoading)
        && (!guarded && old(admin).Some? ==>
              sent == Some(CreateRequest(old(admin).value.id, old(phone), old(name), old(email), old(pin)))
              && createResult == Some(CreateOutcome(reply)) && !createLoading)
      ensures sent.Some? && Succeeded(reply) ==> phone == "" && name == "" && email == "" && pin == ""
      ensures !(sent.Some? && Succeeded(reply)) ==>
                phone == old(phone) && name == old(name) && email == old(email) && pin == old(pin)
    {
      sent := None;
      if phone == "" || pin == "" {
        return;
      }
      createLoading := true;
      createResult := None;
      if admin.None? {
        createResult := Some(CreateOutcome(Threw));
        createLoading := false;
        return;
      }
      sent := Some(CreateRequest(admin.value.id, phone, name, email, pin));
      createResult := Some(CreateOutcome(reply));
      if Succeeded(reply) {
        phone, name, email, pin := "", "", "", "";
      }
      createLoading := false;
    }
  }
}
