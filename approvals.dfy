/** The approvals page: the pending nannies, daycares and elder-care
    providers, and the approve/reject decisions on them. */
module Approvals {
  import opened Js
  import opened Text
  import opened Http
  import opened Entities
  import Api

  datatype Tab = NanniesTab | DaycareTab | ElderCareTab

  /** The query of the pending-nanny list. */
  const PendingNanniesQuery := "role=nanny&verified=false&limit=100"

  /** `verifyNanny(id, approved)`. */
  function NannyDecisionCall(id: string, approved: bool): (c: Api.Call)
    ensures Api.Endpoint(c) == "/admin/users/" + id + "/verify-nanny"
    ensures Api.Body(c) == Some(JObject(map["approved" := JBool(approved)]))
  {
    Api.VerifyNanny(id, approved)
  }

  /** The verify request of a provider decision. Approving asks only for a
      price (`answer`): a non-empty one is sent as `Number(answer)`, otherwise
      the price is left out; rejecting asks only for a reason, sent as
      typed, or `''` when the prompt is cancelled or left empty. */
  function ProviderDecisionCall(kind: Api.ProviderKind, id: string, approved: bool, answer: Option<string>): (c: Api.Call)
    ensures c.VerifyProvider? && c.kind == kind && c.id == id
    ensures c.verdict == if approved then Api.Approved else Api.Rejected
    ensures approved ==> c.rejectionReason.None?
    ensures !approved ==> c.rejectionReason == Some(OrElse(answer, ""))
    ensures !approved ==> c.adminEstimatedPrice.None?
    ensures approved ==> (c.adminEstimatedPrice.Some? <==> Truthy(answer))
    ensures approved && Truthy(answer) ==> c.adminEstimatedPrice == Some(ToNumber(answer.value))
  {
    var reason := if approved then None else Some(OrElse(answer, ""));
    var price := if approved && Truthy(answer) then Some(ToNumber(answer.value)) else None;
    Api.VerifyProvider(kind, id, if approved then Api.Approved else Api.Rejected, reason, price)
  }

  /** The daycare and elder-care decisions send the same method, headers and
      body, and their URLs differ only in the provider segment. */
  lemma DecisionsDifferOnlyInEndpoint(baseUrl: string, id: string, approved: bool, answer: Option<string>)
    ensures var d := Api.Request(baseUrl, ProviderDecisionCall(Api.Daycare, id, approved, answer));
            var e := Api.Request(baseUrl, ProviderDecisionCall(Api.ElderCare, id, approved, answer));
            && d.httpMethod == e.httpMethod && d.body == e.body && d.headers == e.headers
            && d.url == baseUrl + "/providers/daycare/" + id + "/verify"
            && e.url == baseUrl + "/providers/eldercare/" + id + "/verify"
  {
  }

  /** An approval with a typed price sends that price; a rejection sends no price. */
  lemma PriceExample(id: string)
    ensures ProviderDecisionCall(Api.Daycare, id, true, Some(" 1200 ")).adminEstimatedPrice == Some(Num(1200))
    ensures ProviderDecisionCall(Api.Daycare, id, true, Some("")).adminEstimatedPrice == None
    ensures ProviderDecisionCall(Api.Daycare, id, false, Some("1200")).adminEstimatedPrice == None
  {
    ToNumberRoundTrip(1200);
    assert IntToString(1200) == "1200";
    assert Trim(" 1200 ") == "1200";
  }

  function TabName(tab: Tab): string {
    match tab
    case NanniesTab => "Nannies"
    case DaycareTab => "Daycare"
    case ElderCareTab => "Elder Care"
  }

  /** A tab caption with the length of its list, as `Nannies (3)`. */
  function TabLabel(tab: Tab, count: nat): string {
    TabName(tab) + " (" + NatToString(count) + ")"
  }

  /** The caption ends in the count in parentheses, and the digits there
      read back as exactly the count. */
  lemma LabelShowsCount(tab: Tab, count: nat)
    ensures var r := TabLabel(tab, count); var k := |TabName(tab)| + 2;
      && k < |r| && r[k - 2..k] == " (" && r[|r| - 1] == ')'
      && AllDigits(r[k..|r| - 1]) && DigitsValue(r[k..|r| - 1]) == count
  {
    var name, digits := TabName(tab), NatToString(count);
    NatToStringRoundTrip(count);
    var r := TabLabel(tab, count);
    var k := |name| + 2;
    assert r == name + " (" + digits + ")";
    assert r[k..|r| - 1] == digits;
    assert r[k - 2..k] == " (";
  }

  /** What `ApprovalList` renders: the empty text, or one row per item,
      each with its reject and approve buttons. */
  datatype ListView<T> = EmptyText(text: string) | Rows(items: seq<T>)

  function ApprovalList<T>(items: Option<seq<T>>, emptyText: string): (v: ListView<T>)
    ensures v.EmptyText? <==> items.None? || items.value == []
    ensures v.EmptyText? ==> v.text == emptyText
    ensures v.Rows? ==> v.items == items.value
  {
    if items.None? || items.value == [] then EmptyText(emptyText) else Rows(items.value)
  }

  class ApprovalsPage {
    var tab: Tab
    var loading: bool
    var pendingNannies: seq<User>
    var pendingDaycares: seq<Provider>
    var pendingElders: seq<Provider>

    constructor()
      ensures tab == NanniesTab && loading
      ensures pendingNannies == [] && pendingDaycares == [] && pendingElders == []
    {
      tab, loading := NanniesTab, true;
      pendingNannies, pendingDaycares, pendingElders := [], [], [];
    }

    /** Each tab's caption counts its own pending list. */
    function Label(t: Tab): string
      reads this
    {
      match t
      case NanniesTab => TabLabel(t, |pendingNannies|)
      case DaycareTab => TabLabel(t, |pendingDaycares|)
      case ElderCareTab => TabLabel(t, |pendingElders|)
    }

    /** `loadAll`: the three lists are requested together; if any request
        throws none is replaced, otherwise each list is replaced only when its
        own reply succeeded, by `[]` when its payload is missing. */
    method LoadAll(nannies: Reply<Option<seq<User>>>, daycares: Reply<Option<seq<Provider>>>,
                   elders: Reply<Option<seq<Provider>>>) returns (calls: seq<Api.Call>)
      modifies this`loading, this`pendingNannies, this`pendingDaycares, this`pendingElders
      ensures calls == [Api.GetUsers(Some(PendingNanniesQuery)), Api.GetPendingProviders(Api.Daycare),
                        Api.GetPendingProviders(Api.ElderCare)]
      ensures !loading
      ensures var all := nannies.Replied? && daycares.Replied? && elders.Replied?;
        && pendingNannies == (if all && nannies.response.success then OrEmpty(nannies.response.payload) else old(pendingNannies))
        && pendingDaycares == (if all && daycares.response.success then OrEmpty(daycares.response.payload) else old(pendingDaycares))
        && pendingElders == (if all && elders.response.success then OrEmpty(elders.response.payload) else old(pendingElders))
    {
      loading := true;
      calls := [Api.GetUsers(Some(PendingNanniesQuery)), Api.GetPendingProviders(Api.Daycare),
                Api.GetPendingProviders(Api.ElderCare)];
      if nannies.Replied? && daycares.Replied? && elders.Replied? {
        if nannies.response.success { pendingNannies := OrEmpty(nannies.response.payload); }
        if daycares.response.success { pendingDaycares := OrEmpty(daycares.response.payload); }
        if elders.response.success { pendingElders := OrEmpty(elders.response.payload); }
      }
      loading := false;
    }

    /** `handleNannyDecision`: reloads every list only on success. */
    method HandleNannyDecision(id: string, approved: bool, reply: Reply<()>) returns (call: Api.Call, reload: bool)
      ensures call == NannyDecisionCall(id, approved)
      ensures reload <==> Succeeded(reply)
    {
      call := NannyDecisionCall(id, approved);
      reload := Succeeded(reply);
    }

    /** `handleDaycareDecision` and `handleElderDecision`: the request is
        always sent, and every list reloads only on success. */
    method HandleProviderDecision(kind: Api.ProviderKind, id: string, approved: bool, answer: Option<string>, reply: Reply<()>)
      returns (call: Api.Call, reload: bool)
      ensures call == ProviderDecisionCall(kind, id, approved, answer)
      ensures reload <==> Succeeded(reply)
    {
      call := ProviderDecisionCall(kind, id, approved, answer);
      reload := Succeeded(reply);
    }

    method SetTab(t: Tab)
      modifies this`tab
      ensures tab == t
    {
      tab := t;
    }
  }
}
