/** The sign-in page: a phone number and PIN are posted to the backend; a
    successful reply stores the admin in the browser session and opens the
    dashboard. */
module Login {
  import opened Js
  import opened Http
  import opened Entities
  import opened Browser
  import Api

  /** The request the page builds itself with `fetch`. */
  function LoginRequest(baseUrl: string, phoneNumber: string, pin: string): (r: Api.FetchRequest)
    ensures r == Api.Request(baseUrl, Api.Login(phoneNumber, pin))
    ensures r.httpMethod == Some(Api.Post)
  {
    Api.FetchRequest(baseUrl + "/admin/login", Some(Api.Post),
      Some(JObject(map["phoneNumber" := JStr(phoneNumber), "pin" := JStr(pin)])),
      map["Content-Type" := "application/json"])
  }

  /** What the page stores for the admin a reply carries. */
  function Stash(admin: Option<AdminRecord>): (s: Stored)
    ensures s.StoredAdmin? <==> admin.Some?
    ensures admin.Some? ==> s.admin == admin.value
  {
    if admin.Some? then StoredAdmin(admin.value) else StoredUndefined
  }

  /** The error line shown after an attempt. */
  function LoginError(reply: Reply<Option<AdminRecord>>): (e: string)
    ensures Succeeded(reply) <==> e == ""
    ensures reply.Threw? ==> e == "Cannot connect to server"
    ensures reply.Replied? && !reply.response.success ==>
              e == OrElse(reply.response.message, "Login failed")
  {
    match reply
    case Threw => "Cannot connect to server"
    case Replied(r) => if r.success then "" else OrElse(r.message, "Login failed")
  }

  class LoginPage {
    var phoneNumber: string
    var pin: string
    var loading: bool
    var error: string

    constructor()
      ensures phoneNumber == "" && pin == "" && !loading && error == ""
    {
      phoneNumber, pin, loading, error := "", "", false, "";
    }

    /** On mount, a stored session sends the admin straight to the dashboard. */
    method Mount(w: Window)
      modifies w`location
      ensures SessionKey in w.storage ==> w.location == DashboardRoute
      ensures SessionKey !in w.storage ==> w.location == old(w.location)
    {
      if SessionKey in w.storage {
        w.Push(DashboardRoute);
      }
    }

    /** `handleLogin`: sets `loading` and clears `error`, posts the
        credentials, then stores the session and opens the dashboard on
        success, or shows an error; `loading` ends false on every path. */
    method HandleLogin(w: Window, baseUrl: string, reply: Reply<Option<AdminRecord>>) returns (sent: Api.FetchRequest)
      modifies this`loading, this`error, w`storage, w`location
      ensures sent == LoginRequest(baseUrl, phoneNumber, pin)
      ensures !loading && error == LoginError(reply)
      ensures Succeeded(reply) ==>
                w.storage == old(w.storage)[SessionKey := Stash(reply.response.payload)]
                && w.location == DashboardRoute
      ensures !Succeeded(reply) ==> w.storage == old(w.storage) && w.location == old(w.location)
    {
      loading := true;
      error := "";
      sent := LoginRequest(baseUrl, phoneNumber, pin);
      match reply {
        case Threw =>
          error := "Cannot connect to server";
        case Replied(r) =>
          if r.success {
            w.SetItem(SessionKey, Stash(r.payload));
            w.Push(DashboardRoute);
          } else {
            error := OrElse(r.message, "Login failed");
          }
      }
      loading := false;
    }
  }
}
