/** The providers page: every daycare and elder-care provider, pending ones
    first, with a search box over names, owner, city and phone. */
module Providers {
  import opened Js
  import opened Text
  import opened Http
  import opened Entities
  import Api

  datatype Tab = DaycareTab | ElderCareTab

  /** The pending list followed by the approved one, a missing list counting
      as empty; nothing is dropped, reordered or de-duplicated. */
  function Merge(pending: Option<seq<Provider>>, approved: Option<seq<Provider>>): (r: seq<Provider>)
    ensures |r| == |OrEmpty(pending)| + |OrEmpty(approved)|
    ensures r[..|OrEmpty(pending)|] == OrEmpty(pending) && r[|OrEmpty(pending)|..] == OrEmpty(approved)
  {
    OrEmpty(pending) + OrEmpty(approved)
  }

  /** The four texts a search looks in: the name (`centerName || name`),
      the owner, the city and the phone, each `''` when missing. */
  function SearchFields(p: Provider): seq<string> {
    [OrElse(OrElseOpt(p.centerName, p.name), ""), OrElse(p.ownerName, ""), OrElse(p.city, ""), OrElse(p.phoneNumber, "")]
  }

  /** Some field, lower-cased, contains the lower-cased query `q`. */
  predicate Matches(p: Provider, q: string) {
    var f := SearchFields(p);
    Includes(ToLower(f[0]), q) || Includes(ToLower(f[1]), q) || Includes(ToLower(f[2]), q) || Includes(ToLower(f[3]), q)
  }

  /** `list.filter(p => Matches(p, q))`. */
  function Keep(list: seq<Provider>, q: string): (r: seq<Provider>)
    ensures |r| <= |list|
  {
    if list == [] then []
    else if Matches(list[0], q) then [list[0]] + Keep(list[1..], q)
    else Keep(list[1..], q)
  }

  /** `filterList`: a blank search shows the list as it is; otherwise the
      lower-cased, untrimmed search selects the matching providers. */
  function FilterList(list: seq<Provider>, search: string): (r: seq<Provider>)
    ensures IsBlank(search) ==> r == list
    ensures !IsBlank(search) ==> r == Keep(list, ToLower(search))
  {
    TrimEmptyIffBlank(search);
    if Trim(search) == "" then list else Keep(list, ToLower(search))
  }

  /** A provider is kept exactly when it is in the list and matches. */
  lemma {:induction false} KeepMembership(list: seq<Provider>, q: string, p: Provider)
    ensures p in Keep(list, q) <==> p in list && Matches(p, q)
  {
    if list != [] {
      KeepMembership(list[1..], q, p);
      assert list == [list[0]] + list[1..];
    }
  }

  /** The filtered list keeps the original order. */
  lemma {:induction false} KeepIsSubsequence(list: seq<Provider>, q: string)
    ensures IsSubsequence(Keep(list, q), list)
  {
    if list != [] {
      KeepIsSubsequence(list[1..], q);
      var r := Keep(list, q);
      if Matches(list[0], q) {
        assert r[0] == list[0] && r[1..] == Keep(list[1..], q);
      }
    }
  }

  /** Filtering what is already filtered changes nothing. */
  lemma {:induction false} KeepIdempotent(list: seq<Provider>, q: string)
    ensures Keep(Keep(list, q), q) == Keep(list, q)
  {
    if list != [] {
      KeepIdempotent(list[1..], q);
      if Matches(list[0], q) {
        var r := Keep(list, q);
        assert r[0] == list[0] && r[1..] == Keep(list[1..], q);
      }
    }
  }

  /** Filtering keeps every copy of a matching provider and no copy of any
      other: duplicates are neither added nor removed. */
  lemma {:induction false} KeepMultiplicity(list: seq<Provider>, q: string, p: Provider)
    ensures multiset(Keep(list, q))[p] == if Matches(p, q) then multiset(list)[p] else 0
  {
    if list != [] {
      KeepMultiplicity(list[1..], q, p);
      assert list == [list[0]] + list[1..];
    }
  }

  /** A provider is kept exactly when it is listed and matches, for all providers at once. */
  lemma KeepMembershipExact(list: seq<Provider>, q: string)
    ensures forall p :: p in Keep(list, q) <==> p in list && Matches(p, q)
  {
    forall p ensures p in Keep(list, q) <==> p in list && Matches(p, q) {
      KeepMembership(list, q, p);
    }
  }

  /** The page's search, applied twice, is the search applied once; and
      whatever the search, the result is an order-preserving selection of
      the list holding exactly its matching providers. */
  lemma FilterListProperties(list: seq<Provider>, search: string, p: Provider)
    ensures FilterList(FilterList(list, search), search) == FilterList(list, search)
    ensures IsSubsequence(FilterList(list, search), list)
    ensures !IsBlank(search) ==> (p in FilterList(list, search) <==> p in list && Matches(p, ToLower(search)))
  {
    if IsBlank(search) {
      SubsequenceReflexive(list);
    } else {
      KeepIdempotent(list, ToLower(search));
      KeepIsSubsequence(list, ToLower(search));
      KeepMembership(list, ToLower(search), p);
    }
  }

  /** A text shorter than the query cannot contain it. */
  lemma TooShortToInclude(s: string, q: string)
    requires |s| < |q|
    ensures !Includes(s, q)
  {
  }

  /** The search is not trimmed: `"sunrise "` with its trailing space
      misses a centre named `Sunrise`, which `"sunrise"` finds. */
  lemma UntrimmedSearchExample(p: Provider)
    requires p.centerName == Some("Sunrise") && p.ownerName.None? && p.city.None? && p.phoneNumber.None?
    ensures FilterList([p], "sunrise ") == []
    ensures FilterList([p], "sunrise") == [p]
  {
    var f := SearchFields(p);
    assert f[0] == "Sunrise" && f[1] == "" && f[2] == "" && f[3] == "";
    assert ToLower("sunrise ") == "sunrise ";
    assert ToLower("sunrise") == "sunrise";
    assert ToLower("Sunrise") == "sunrise";
    TooShortToInclude("sunrise", "sunrise ");
    TooShortToInclude("", "sunrise ");
    assert OccursAt("sunrise", "sunrise", 0);
    assert !IsBlank("sunrise ") by { assert !IsWhitespace("sunrise "[0]); }
    assert !IsBlank("sunrise") by { assert !IsWhitespace("sunrise"[0]); }
  }

  /** The status badge text: the provider's status, `pending` when it is
      missing or empty. */
  function StatusLabel(p: Provider): (r: string)
    ensures r != ""
    ensures !Truthy(p.verificationStatus) ==> r == "pending"
    ensures Truthy(p.verificationStatus) ==> r == p.verificationStatus.value
  {
    OrElse(p.verificationStatus, "pending")
  }

  class ProvidersPage {
    var tab: Tab
    var loading: bool
    var search: string
    var daycares: seq<Provider>
    var eldercare: seq<Provider>

    constructor()
      ensures tab == DaycareTab && loading && search == "" && daycares == [] && eldercare == []
    {
      tab, loading, search, daycares, eldercare := DaycareTab, true, "", [], [];
    }

    /** The providers the current tab shows: the tab's list under a blank
        search, otherwise an order-preserving selection of it holding
        exactly the tab's providers that match the lower-cased search. */
    function Shown(): (r: seq<Provider>)
      reads this
      ensures IsBlank(search) ==> r == (if tab == DaycareTab then daycares else eldercare)
      ensures IsSubsequence(r, if tab == DaycareTab then daycares else eldercare)
      ensures forall p :: p in r ==> p in (if tab == DaycareTab then daycares else eldercare)
      ensures !IsBlank(search) ==> forall p :: p in r <==>
                p in (if tab == DaycareTab then daycares else eldercare) && Matches(p, ToLower(search))
    {
      var list := if tab == DaycareTab then daycares else eldercare;
      if IsBlank(search) then
        SubsequenceReflexive(list);
        FilterList(list, search)
      else
        KeepIsSubsequence(list, ToLower(search));
        KeepMembershipExact(list, ToLower(search));
        FilterList(list, search)
    }

    /** `loadData`: the four lists are requested together; unless one
        request throws, both tabs are replaced by their merged lists,
        whatever the `success` flags say. */
    method LoadData(approvedDaycares: Reply<Option<seq<Provider>>>, pendingDaycares: Reply<Option<seq<Provider>>>,
                    approvedElders: Reply<Option<seq<Provider>>>, pendingElders: Reply<Option<seq<Provider>>>)
      returns (calls: seq<Api.Call>)
      modifies this`loading, this`daycares, this`eldercare
      ensures calls == [Api.GetProviders(Api.Daycare, Some("limit=100")), Api.GetPendingProviders(Api.Daycare),
                        Api.GetProviders(Api.ElderCare, Some("limit=100")), Api.GetPendingProviders(Api.ElderCare)]
      ensures !loading
      ensures var all := approvedDaycares.Replied? && pendingDaycares.Replied? && approvedElders.Replied? && pendingElders.Replied?;
        && daycares == (if all then Merge(pendingDaycares.response.payload, approvedDaycares.response.payload) else old(daycares))
        && eldercare == (if all then Merge(pendingElders.response.payload, approvedElders.response.payload) else old(eldercare))
    {
      loading := true;
      calls := [Api.GetProviders(Api.Daycare, Some("limit=100")), Api.GetPendingProviders(Api.Daycare),
                Api.GetProviders(Api.ElderCare, Some("limit=100")), Api.GetPendingProviders(Api.ElderCare)];
      if approvedDaycares.Replied? && pendingDaycares.Replied? && approvedElders.Replied? && pendingElders.Replied? {
        daycares := Merge(pendingDaycares.response.payload, approvedDaycares.response.payload);
        eldercare := Merge(pendingElders.response.payload, approvedElders.response.payload);
      }
      loading := false;
    }

    method SetSearch(s: string)
      modifies this`search
      ensures search == s
    {
      search := s;
    }

    method SetTab(t: Tab)
      modifies this`tab
      ensures tab == t
    {
      tab := t;
    }
  }
}
