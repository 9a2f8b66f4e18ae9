/** The pieces the three server-paginated list pages share: the pagination
    envelope with its previous/next controls, and the query string built
    with `URLSearchParams`. */
module Paging {
  import opened Text

  /** The `{ total, page, pages }` envelope; a page starts from `{0, 1, 1}`. */
  datatype Pagination = Pagination(total: int, page: int, pages: int)

  const InitialPagination := Pagination(0, 1, 1)

  /** The rows per page every list requests. */
  const PageSize := "15"

  /** The previous/next controls are rendered only for more than one page. */
  predicate ControlsShown(p: Pagination) {
    p.pages > 1
  }

  predicate PrevDisabled(p: Pagination) {
    p.page <= 1
  }

  predicate NextDisabled(p: Pagination) {
    p.page >= p.pages
  }

  /** On a page within range, the controls are shown exactly when one of
      them is enabled; the first page disables previous, the last next. */
  lemma ControlsWithinRange(p: Pagination)
    requires 1 <= p.page <= p.pages
    ensures ControlsShown(p) <==> !PrevDisabled(p) || !NextDisabled(p)
    ensures PrevDisabled(p) <==> p.page == 1
    ensures NextDisabled(p) <==> p.page == p.pages
  {
  }

  /** The pages the enabled controls would load: previous first, then next. */
  function NavigationTargets(p: Pagination): (r: seq<int>)
    ensures forall t :: t in r ==> 1 <= t || (t == p.page + 1 && p.page < 0)
    ensures forall t :: t in r ==> t <= p.pages || (t == p.page - 1 && p.page > p.pages + 1)
    ensures (p.page - 1 in r <==> !PrevDisabled(p)) && (p.page + 1 in r <==> !NextDisabled(p))
    ensures 1 <= p.page <= p.pages ==> forall t :: t in r ==> 1 <= t <= p.pages
  {
    (if PrevDisabled(p) then [] else [p.page - 1]) + (if NextDisabled(p) then [] else [p.page + 1])
  }

  /** One `name=value` entry of a `URLSearchParams`. */
  datatype Param = Param(name: string, value: string)

  /** `if (value) params.append(name, value)`. */
  function AppendIfSet(ps: seq<Param>, name: string, value: string): seq<Param> {
    if value != "" then ps + [Param(name, value)] else ps
  }

  /** The parameters of a list request: `page`, `limit=15`, then `search`
      and one categorical filter (`role` or `status`) when each is non-empty. */
  function ListParams(page: int, search: string, filterName: string, filter: string): (r: seq<Param>)
    ensures |r| == 2 + (if search != "" then 1 else 0) + (if filter != "" then 1 else 0)
    ensures r[0] == Param("page", IntToString(page)) && r[1] == Param("limit", PageSize)
    ensures Param("search", search) in r[2..] <==> search != ""
    ensures filterName != "search" ==> (Param(filterName, filter) in r[2..] <==> filter != "")
    ensures forall q :: q in r[2..] ==> q == Param("search", search) || q == Param(filterName, filter)
  {
    var base := [Param("page", IntToString(page)), Param("limit", PageSize)];
    var withSearch := AppendIfSet(base, "search", search);
    var r := AppendIfSet(withSearch, filterName, filter);
    assert withSearch[2..] == (if search != "" then [Param("search", search)] else []);
    assert r[2..] == withSearch[2..] + (if filter != "" then [Param(filterName, filter)] else []);
    r
  }

  function HexDigit(d: nat): char
    requires d < 16
  {
    if d < 10 then ('0' as int + d) as char else ('A' as int + d - 10) as char
  }

  /** The UTF-8 bytes of a code point. */
  function Utf8(c: char): (r: seq<nat>)
    ensures 1 <= |r| <= 4 && forall i :: 0 <= i < |r| ==> r[i] < 256
  {
    var cp := c as int;
    if cp < 0x80 then [cp]
    else if cp < 0x800 then [0xC0 + cp / 64, 0x80 + cp % 64]
    else if cp < 0x10000 then [0xE0 + cp / 4096, 0x80 + (cp / 64) % 64, 0x80 + cp % 64]
    else [0xF0 + cp / 262144, 0x80 + (cp / 4096) % 64, 0x80 + (cp / 64) % 64, 0x80 + cp % 64]
  }

  function PercentBytes(bs: seq<nat>): (r: string)
    requires forall i :: 0 <= i < |bs| ==> bs[i] < 256
    ensures forall i :: 0 <= i < |r| ==> r[i] == '%' || IsDigit(r[i]) || 'A' <= r[i] <= 'F'
  {
    if bs == [] then [] else ['%', HexDigit(bs[0] / 16), HexDigit(bs[0] % 16)] + PercentBytes(bs[1..])
  }

  /** Characters the form encoding writes as they are. */
  predicate Unreserved(c: char) {
    IsDigit(c) || ('a' <= c <= 'z') || ('A' <= c <= 'Z') || c == '*' || c == '-' || c == '.' || c == '_'
  }

  /** application/x-www-form-urlencoded encoding of one character: a space
      becomes `+`, other reserved characters are percent-encoded UTF-8. */
  function EncodeChar(c: char): string {
    if Unreserved(c) then [c] else if c == ' ' then "+" else PercentBytes(Utf8(c))
  }

  function Encode(s: string): string {
    if s == [] then [] else EncodeChar(s[0]) + Encode(s[1..])
  }

  /** An encoded name or value never contains the separators `&` and `=`,
      so the serialized query splits back into exactly the appended entries. */
  lemma {:induction false} EncodeHasNoSeparators(s: string)
    ensures '&' !in Encode(s) && '=' !in Encode(s)
  {
    if s != [] {
      EncodeHasNoSeparators(s[1..]);
      var e := EncodeChar(s[0]);
      assert '&' !in e && '=' !in e;
    }
  }

  /** One serialized `name=value` entry. */
  function Entry(p: Param): string {
    Encode(p.name) + "=" + Encode(p.value)
  }

  /** `params.toString()`: the entries joined by `&`. */
  function Serialize(ps: seq<Param>): string {
    if ps == [] then ""
    else if |ps| == 1 then Entry(ps[0])
    else Entry(ps[0]) + "&" + Serialize(ps[1..])
  }

  /** A string made of unreserved characters is its own encoding. */
  lemma {:induction false} EncodeUnreserved(s: string)
    requires forall i :: 0 <= i < |s| ==> Unreserved(s[i])
    ensures Encode(s) == s
  {
    if s != [] {
      EncodeUnreserved(s[1..]);
    }
  }

  /** A page number is written into the query as its plain decimal spelling. */
  lemma PageNumberEncodesAsItself(page: int)
    ensures Encode(IntToString(page)) == IntToString(page)
  {
    var n: nat := if page < 0 then -page else page;
    NatToStringRoundTrip(n);
    var t := IntToString(page);
    assert t == (if page < 0 then "-" else "") + NatToString(n);
    forall i | 0 <= i < |t| ensures Unreserved(t[i]) {
      if page < 0 && i > 0 {
        assert t[i] == NatToString(n)[i - 1];
      }
    }
    EncodeUnreserved(t);
  }
}
