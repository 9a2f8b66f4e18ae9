/** The notifications page: a push to one user, to every user of a role, or
    to everyone, plus four ready-made templates. */
module Notifications {
  import opened Js
  import opened Text
  import opened Http
  import Api

  datatype Mode = UserMode | RoleMode | BroadcastMode

  /** The outcome line under the form. */
  datatype SendResult = SendResult(success: bool, message: string)

  /** What a press of Send leads to. */
  datatype Plan =
    | Ignored                 // title or body blank: nothing happens
    | MissingUser             // single-user mode without a user id
    | Dispatch(call: Api.Call)

  /** The data attached to a single-user push. */
  const DashboardScreen := JObject(map["screen" := JStr("Dashboard")])

  /** The validation and routing of `handleSend`: a blank title or body
      stops everything, a blank user id in single-user mode is refused,
      and otherwise exactly one request goes out, to the user with the
      dashboard screen, to the chosen role, or to everyone. */
  function PlanSend(mode: Mode, userId: string, role: string, title: string, body: string): (p: Plan)
    ensures p.Ignored? <==> IsBlank(title) || IsBlank(body)
    ensures p.MissingUser? <==> !IsBlank(title) && !IsBlank(body) && mode == UserMode && IsBlank(userId)
    ensures p.Dispatch? && mode == UserMode ==> p.call == Api.SendNotification(userId, title, body, Some(DashboardScreen))
    ensures p.Dispatch? && mode == RoleMode ==> p.call == Api.BroadcastNotification(title, body, Some(role))
    ensures p.Dispatch? && mode == BroadcastMode ==> p.call == Api.BroadcastNotification(title, body, None)
  {
    TrimEmptyIffBlank(title);
    TrimEmptyIffBlank(body);
    TrimEmptyIffBlank(userId);
    if Trim(title) == "" || Trim(body) == "" then Ignored
    else match mode
      case UserMode =>
        if Trim(userId) == "" then MissingUser else Dispatch(Api.SendNotification(userId, title, body, Some(DashboardScreen)))
      case RoleMode => Dispatch(Api.BroadcastNotification(title, body, Some(role)))
      case BroadcastMode => Dispatch(Api.BroadcastNotification(title, body, None))
  }

  /** A valid send reaches exactly one of the three notification endpoints:
      role mode the role endpoint when a role is chosen, broadcast mode
      always the broadcast endpoint. */
  lemma DispatchEndpoint(mode: Mode, userId: string, role: string, title: string, body: string)
    requires PlanSend(mode, userId, role, title, body).Dispatch?
    ensures var e := Api.Endpoint(PlanSend(mode, userId, role, title, body).call);
      && (e == "/notifications/send-to-user" <==> mode == UserMode)
      && (e == "/notifications/send-to-role" <==> mode == RoleMode && role != "")
      && (e == "/notifications/broadcast" <==> mode == BroadcastMode || (mode == RoleMode && role == ""))
  {
  }

  /** The outcome of a dispatched send: the server's message when it has
      one, else a default for success or failure; a throw reads as a
      connection failure. */
  function Outcome(reply: Reply<()>): (r: SendResult)
    ensures r.success <==> Succeeded(reply)
    ensures r.message != ""
    ensures reply.Threw? ==> r.message == "Failed to connect to server"
    ensures reply.Replied? && Truthy(reply.response.message) ==> r.message == reply.response.message.value
    ensures Succeeded(reply) && !Truthy(reply.response.message) ==> r.message == "Notification sent successfully!"
    ensures reply.Replied? && !reply.response.success && !Truthy(reply.response.message) ==> r.message == "Failed to send"
  {
    match reply
    case Threw => SendResult(false, "Failed to connect to server")
    case Replied(r) =>
      SendResult(r.success, OrElse(r.message, if r.success then "Notification sent successfully!" else "Failed to send"))
  }

  datatype Template = Template(title: string, body: string)

  const Templates := [
    Template("Welcome to WeCare!", "Thank you for joining. Start exploring our services today!"),
    Template("Profile Approved", "Congratulations! Your nanny profile has been verified. You can now receive booking requests."),
    Template("New Feature Available", "Check out our latest features in the app. Update now for the best experience!"),
    Template("Scheduled Maintenance", "WeCare will undergo maintenance tonight from 2 AM to 4 AM IST. We apologize for the inconvenience.")
  ]

  class NotificationsPage {
    var mode: Mode
    var userId: string
    var role: string
    var title: string
    var body: string
    var loading: bool
    var result: Option<SendResult>

    constructor()
      ensures mode == UserMode && userId == "" && role == "parent" && title == "" && body == ""
      ensures !loading && result == None
    {
      mode, userId, role, title, body := UserMode, "", "parent", "", "";
      loading, result := false, None;
    }

    /** `handleSend`. A blank title or body changes nothing. Otherwise the
        result is reset and either the missing user id is reported or the
        request goes out and its outcome is shown; only a success clears
        title, body and user id. Mode and role are kept and `loading` ends
        false on every path. */
    method HandleSend(reply: Reply<()>) returns (sent: Option<Api.Call>)
      modifies this`title, this`body, this`userId, this`loading, this`result
      ensures var p := old(PlanSend(mode, userId, role, title, body));
        && (sent.Some? <==> p.Dispatch?)
        && (sent.Some? ==> sent.value == p.call)
        && (p.Ignored? ==> result == old(result) && loading == old(loading))
        && (p.MissingUser? ==> result == Some(SendResult(false, "User ID is required")) && !loading)
        && (p.Dispatch? ==> result == Some(Outcome(reply)) && !loading)
      ensures Succeeded(reply) && sent.Some? ==> title == "" && body == "" && userId == ""
      ensures !(Succeeded(reply) && sent.Some?) ==>
                title == old(title) && body == old(body) && userId == old(userId)
    {
      var p := PlanSend(mode, userId, role, title, body);
      sent := None;
      if p.Ignored? {
        return;
      }
      loading := true;
      result := None;
      if p.MissingUser? {
        result := Some(SendResult(false, "User ID is required"));
        loading := false;
        return;
      }
      sent := Some(p.call);
      result := Some(Outcome(reply));
      if Succeeded(reply) {
        title, body, userId := "", "", "";
      }
      loading := false;
    }

    /** Picking template `i` fills title and body with its text. */
    method ChooseTemplate(i: nat)
      requires i < |Templates|
      modifies this`title, this`body
      ensures title == Templates[i].title && body == Templates[i].body
    {
      title := Templates[i].title;
      body := Templates[i].body;
    }

    method SetMode(m: Mode)
      modifies this`mode
      ensures mode == m
    {
      mode := m;
    }
  }
}
