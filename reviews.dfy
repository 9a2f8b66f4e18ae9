/** The reviews page: a paginated list of reviews with a five-star rating. */
module Reviews {
  import opened Js
  import opened Text
  import opened Http
  import opened Entities
  import opened Paging
  import Api

  /** The query `page=<n>&limit=15`, written out by hand. */
  function ReviewsQuery(page: int): string {
    "page=" + IntToString(page) + "&limit=15"
  }

  /** The hand-written query is the one `URLSearchParams` would give for
      the same page and no filters. */
  lemma ReviewsQueryIsListQuery(page: int)
    ensures ReviewsQuery(page) == Serialize(ListParams(page, "", "", ""))
  {
    var ps := ListParams(page, "", "", "");
    PageEntry(page);
    LimitEntry();
    TwoEntries(ps);
    assert "&limit=15" == "&" + "limit=15";
  }

  lemma PageEntry(page: int)
    ensures Entry(Param("page", IntToString(page))) == "page=" + IntToString(page)
  {
    PageNumberEncodesAsItself(page);
    EncodeUnreserved("page");
  }

  lemma LimitEntry()
    ensures Entry(Param("limit", PageSize)) == "limit=15"
  {
    EncodeUnreserved("limit");
    EncodeUnreserved("15");
  }

  lemma TwoEntries(ps: seq<Param>)
    requires |ps| == 2
    ensures Serialize(ps) == Entry(ps[0]) + "&" + Entry(ps[1])
  {
    assert ps[1..] == [ps[1]];
  }

  /** The five stars of a rating: star `i` is filled when `i < rating`. */
  function Stars(rating: int): (r: seq<bool>)
    ensures |r| == 5
    ensures forall i :: 0 <= i < 5 ==> (r[i] <==> i < rating)
  {
    seq(5, i requires 0 <= i < 5 => i < rating)
  }

  function CountFilled(s: seq<bool>): nat {
    if s == [] then 0 else (if s[0] then 1 else 0) + CountFilled(s[1..])
  }

  /** Filled stars lead, a filled star is never after an empty one. */
  lemma {:induction false} CountLeading(s: seq<bool>, k: nat)
    requires k <= |s|
    requires forall i :: 0 <= i < |s| ==> (s[i] <==> i < k)
    ensures CountFilled(s) == k
  {
    if s != [] {
      CountLeading(s[1..], if k == 0 then 0 else k - 1);
    }
  }

  /** For an integer rating the number of filled stars is the rating
      clamped to [0, 5]. */
  lemma FilledCount(rating: int)
    ensures CountFilled(Stars(rating)) == if rating < 0 then 0 else if rating > 5 then 5 else rating
  {
    var k := if rating < 0 then 0 else if rating > 5 then 5 else rating;
    CountLeading(Stars(rating), k);
  }

  /** The comment line, `No comment` when there is none. */
  function CommentText(r: Review): (t: string)
    ensures t != ""
    ensures !Truthy(r.comment) ==> t == "No comment"
    ensures Truthy(r.comment) ==> t == r.comment.value
  {
    OrElse(r.comment, "No comment")
  }

  /** The reviewer line, `Unknown Parent` without a parent name. */
  function ParentText(r: Review): (t: string)
    ensures t != ""
    ensures !Truthy(r.parentName) ==> t == "Unknown Parent"
    ensures Truthy(r.parentName) ==> t == r.parentName.value
  {
    OrElse(r.parentName, "Unknown Parent")
  }

  /** The nanny line, `Unknown` without a nanny name. */
  function NannyText(r: Review): (t: string)
    ensures t != ""
    ensures !Truthy(r.nannyName) ==> t == "Unknown"
    ensures Truthy(r.nannyName) ==> t == r.nannyName.value
  {
    OrElse(r.nannyName, "Unknown")
  }

  /** The `{ reviews, pagination }` payload of a list reply. */
  datatype ReviewList = ReviewList(reviews: seq<Review>, pagination: Pagination)

  class ReviewsPage {
    var reviews: seq<Review>
    var loading: bool
    var pagination: Pagination

    constructor()
      ensures reviews == [] && loading && pagination == InitialPagination
    {
      reviews, loading, pagination := [], true, InitialPagination;
    }

    /** `loadReviews(page)`, page 1 on mount: takes the reviews and the
        pagination only from a successful reply. */
    method LoadReviews(page: int, reply: Reply<ReviewList>) returns (call: Api.Call)
      modifies this`reviews, this`pagination, this`loading
      ensures call == Api.GetReviews(Some(ReviewsQuery(page)))
      ensures !loading
      ensures Succeeded(reply) ==> reviews == reply.response.payload.reviews && pagination == reply.response.payload.pagination
      ensures !Succeeded(reply) ==> reviews == old(reviews) && pagination == old(pagination)
    {
      loading := true;
      call := Api.GetReviews(Some(ReviewsQuery(page)));
      if Succeeded(reply) {
        reviews := reply.response.payload.reviews;
        pagination := reply.response.payload.pagination;
      }
      loading := false;
    }
  }
}
