/**
 * The page arithmetic of `getAllBuses` and `getAllRoutes`: the query skips
 * `(page - 1) * limit` documents and returns at most `limit`, and the response
 * reports `Math.ceil(total / limit)` pages. The pagination query validator
 * guarantees `page >= 1` and `1 <= limit <= 100`.
 */
module Pagination {

  /** `skip((page - 1) * limit).limit(limit)` on the matching documents, in the order of the sort. */
  function PageOf<T>(items: seq<T>, page: int, limit: int): (r: seq<T>)
    requires page >= 1 && limit >= 1
    ensures |r| <= limit
    ensures (page - 1) * limit >= |items| ==> r == []
    ensures (page - 1) * limit < |items| ==> |r| == if page * limit <= |items| then limit else |items| - (page - 1) * limit
    ensures forall i :: 0 <= i < |r| ==> r[i] == items[(page - 1) * limit + i]
  {
    var skip := (page - 1) * limit;
    if skip >= |items| then []
    else if skip + limit <= |items| then items[skip..skip + limit]
    else items[skip..]
  }

  /** `Math.ceil(total / limit)`. */
  function Pages(total: nat, limit: int): (p: nat)
    requires limit >= 1
    ensures total == 0 ==> p == 0
    ensures total > 0 ==> (p - 1) * limit < total <= p * limit
  {
    (total + limit - 1) / limit
  }

  /**
   * Every document is on exactly one page within the reported page count: the
   * k-th (from 0) is entry `k % limit` of page `k / limit + 1`.
   */
  lemma EveryItemOnOnePage<T>(items: seq<T>, limit: int, k: int)
    requires limit >= 1 && 0 <= k < |items|
    ensures 1 <= k / limit + 1 <= Pages(|items|, limit)
    ensures k % limit < |PageOf(items, k / limit + 1, limit)|
    ensures PageOf(items, k / limit + 1, limit)[k % limit] == items[k]
  {
    var page := k / limit + 1;
    assert (page - 1) * limit + k % limit == k;
    var p := Pages(|items|, limit);
    assert (page - 1) * limit < p * limit;
    MulStrict(page - 1, p, limit);
  }

  /** Pages past the reported count are empty. */
  lemma PagesBeyondCountAreEmpty<T>(items: seq<T>, page: int, limit: int)
    requires limit >= 1 && page > Pages(|items|, limit)
    ensures PageOf(items, page, limit) == []
  {
    var p := Pages(|items|, limit);
    assert |items| <= p * limit;
    MulMonotone(p, page - 1, limit);
  }

  lemma MulStrict(x: int, y: int, c: int)
    requires c >= 1 && x * c < y * c
    ensures x < y
  {
    assert (y - x) * c > 0;
  }

  lemma MulMonotone(x: int, y: int, c: int)
    requires c >= 1 && x <= y
    ensures x * c <= y * c
  {
    assert (y - x) * c >= 0;
  }

  /** 25 documents at 10 per page make 3 pages, the last holding 5. */
  lemma TwentyFiveByTen<T>(items: seq<T>)
    requires |items| == 25
    ensures Pages(25, 10) == 3
    ensures |PageOf(items, 3, 10)| == 5
  {
  }
}
