/** The pagination arithmetic the list operations share: `skip = (page - 1) * limit`
    and `totalPages = Math.ceil(total / limit)`. */
module Paging {
  import opened Base
  import opened Sorting

  /** What a list endpoint reports besides the page itself: the ids that match, their
      count, the page asked for, the page count and the offset of the page. */
  datatype ListPage = ListPage(matching: set<Id>, total: nat, page: int, totalPages: int, skip: int)

  /** The number of documents skipped before the requested page. */
  function Skip(page: int, limit: int): int {
    (page - 1) * limit
  }

  /** `Math.ceil(total / limit)` for a non-zero `limit`. */
  function TotalPages(total: nat, limit: int): (r: int)
    requires limit != 0
    ensures limit > 0 ==> r >= 0 && (r - 1) * limit < total <= r * limit
    ensures limit > 0 && total > 0 ==> r >= 1
    ensures limit < 0 ==> r <= 0
  {
    if limit > 0 then (total + limit - 1) / limit
    else -(total / -limit)
  }

  /** `find().skip(skip).limit(limit)` over the documents in their listing order; the
      database refuses a negative skip. */
  function Page<T>(s: seq<T>, page: int, limit: int): (r: Option<seq<T>>)
    ensures r.None? <==> Skip(page, limit) < 0
  {
    var skip := Skip(page, limit);
    if skip < 0 then None
    else if skip >= |s| then Some([])
    else Some(MongoLimit(s[skip..], limit))
  }

  /** With a positive limit the offset is negative exactly for a page below 1. */
  lemma SkipNegative(page: int, limit: int)
    requires limit > 0
    ensures Skip(page, limit) < 0 <==> page < 1
  {
    if page < 1 {
      MulMono(page - 1, -1, limit);
    } else {
      MulMono(0, page - 1, limit);
    }
  }

  lemma MulMono(a: int, b: int, l: int)
    requires a <= b && l > 0
    ensures a * l <= b * l
  {
    assert b * l - a * l == (b - a) * l;
  }

  /** Page `p` starts inside the list exactly when `p` is at most `totalPages`, and every
      page before the last is full. */
  lemma PageStarts(total: nat, page: int, limit: int)
    requires limit > 0 && page >= 1
    ensures Skip(page, limit) < total <==> page <= TotalPages(total, limit)
    ensures page < TotalPages(total, limit) ==> Skip(page, limit) + limit < total
  {
    var tp := TotalPages(total, limit);
    if page <= tp {
      MulMono(page - 1, tp - 1, limit);
    } else {
      MulMono(tp, page - 1, limit);
    }
    if page < tp {
      MulMono(page, tp - 1, limit);
      assert Skip(page, limit) + limit == page * limit;
    }
  }

  /** With a positive limit, page `p` holds the `limit` documents that follow the first
      `(p - 1) * limit`, and it is non-empty exactly when `p` is at most `totalPages`. */
  lemma PageProperties<T>(s: seq<T>, page: int, limit: int)
    requires limit > 0 && page >= 1
    ensures Page(s, page, limit).Some?
    ensures var r := Page(s, page, limit).value;
      && |r| <= limit
      && (forall i :: 0 <= i < |r| ==> Skip(page, limit) + i < |s| && r[i] == s[Skip(page, limit) + i])
      && (|r| > 0 <==> page <= TotalPages(|s|, limit))
      && (page < TotalPages(|s|, limit) ==> |r| == limit)
  {
    PageStarts(|s|, page, limit);
    assert Skip(page, limit) >= 0 by { MulMono(0, page - 1, limit); }
  }
}
