/** Paged list synchronisation shared by the order, product and customer views:
    a page of at most 20 records is requested from a WooCommerce collection and
    merged into the list accumulated so far, by record id. */
module Paging {
  import opened Common
  import WooCommerce

  /** The `per_page` every view sends. */
  const PageSize: int := 20

  /** One GET against a WooCommerce collection: the endpoint URL, the basic-auth
      pair, and the query parameters `search` (absent for orders and products),
      `per_page` and `page`. */
  datatype PageQuery = PageQuery(
    url: string,
    username: string,
    password: string,
    search: Option<string>,
    perPage: int,
    page: int)

  /** The request a view sends to `{active.url}/wp-json/wc/v3/{collection}`. */
  function QueryFor(active: WooCommerce.Server, collection: string, search: Option<string>, page: int): (q: PageQuery)
    ensures q.perPage == PageSize && q.page == page && q.search == search
    ensures q.username == active.consumerKey && q.password == active.consumerSecret
  {
    PageQuery(active.url + "/wp-json/wc/v3/" + collection, active.consumerKey, active.consumerSecret,
              search, PageSize, page)
  }

  /** `hasMore` after a page arrives: only a full page promises another one. */
  predicate HasMoreAfter<T>(page: seq<T>) {
    |page| == PageSize
  }

  /** Fetching one page: with no active profile the view throws before any
      request; otherwise the outcome is the server's answer to its query. */
  function LoadPage<T>(active: Option<WooCommerce.Server>, collection: string, search: Option<string>, page: int,
                       net: PageQuery -> Outcome<seq<T>>): (r: Outcome<seq<T>>)
    ensures active.None? ==> r == Err(PlainFailure(NoActiveServerMessage))
    ensures active.Some? ==> r == net(QueryFor(active.value, collection, search, page))
  {
    match active
    case None => Err(PlainFailure(NoActiveServerMessage))
    case Some(server) => net(QueryFor(server, collection, search, page))
  }

  /** Without an active profile the network is never consulted: any two
      networks give the same outcome. */
  lemma NoActiveServerSendsNothing<T>(collection: string, search: Option<string>, page: int,
                                      net1: PageQuery -> Outcome<seq<T>>, net2: PageQuery -> Outcome<seq<T>>)
    ensures LoadPage(None, collection, search, page, net1) == LoadPage(None, collection, search, page, net2)
    ensures LoadPage(None, collection, search, page, net1).Err?
  {
  }

  /** The accumulated list after a page request: the merge on success, the list
      as it was on failure. */
  function MergedAfter<T>(prev: seq<T>, o: Outcome<seq<T>>, key: T -> int): seq<T> {
    if o.Ok? then Merge(prev, o.value, key) else prev
  }

  /** `hasMore` after a page request: set from the page on success, kept on failure. */
  function HasMoreAfterLoad<T>(before: bool, o: Outcome<seq<T>>): bool {
    if o.Ok? then HasMoreAfter(o.value) else before
  }

  /** The error banner after a page request. */
  function ErrorAfterLoad<T>(o: Outcome<seq<T>>): Option<string> {
    if o.Ok? then None else Some(ErrorText(o.error))
  }

  /** Only a full page keeps paging open; a short page closes it whatever was
      known before, and a failed load leaves the list and `hasMore` as they were
      and always shows an error. */
  lemma HasMoreRule<T>(prev: seq<T>, before: bool, o: Outcome<seq<T>>, key: T -> int)
    ensures o.Ok? ==> (HasMoreAfterLoad(before, o) <==> |o.value| == PageSize) && ErrorAfterLoad(o).None?
    ensures o.Err? ==> HasMoreAfterLoad(before, o) == before && MergedAfter(prev, o, key) == prev && ErrorAfterLoad(o).Some?
  {
  }

  // ---------------------------------------------------------------------------
  // Merging a page into the accumulated list

  function IdsOf<T>(s: seq<T>, key: T -> int): set<int> {
    set i | 0 <= i < |s| :: key(s[i])
  }

  lemma IdsOfConcat<T>(a: seq<T>, b: seq<T>, key: T -> int)
    ensures IdsOf(a + b, key) == IdsOf(a, key) + IdsOf(b, key)
  {
    var ab := a + b;
    forall k | k in IdsOf(ab, key) ensures k in IdsOf(a, key) + IdsOf(b, key) {
      var i :| 0 <= i < |ab| && key(ab[i]) == k;
      if i >= |a| {
        assert ab[i] == b[i - |a|];
      }
    }
    forall k | k in IdsOf(a, key) ensures k in IdsOf(ab, key) {
      var i :| 0 <= i < |a| && key(a[i]) == k;
      assert ab[i] == a[i];
    }
    forall k | k in IdsOf(b, key) ensures k in IdsOf(ab, key) {
      var i :| 0 <= i < |b| && key(b[i]) == k;
      assert ab[i + |a|] == b[i];
    }
  }

  lemma IdsOfTail<T>(s: seq<T>, key: T -> int)
    requires s != []
    ensures IdsOf(s, key) == {key(s[0])} + IdsOf(s[1..], key)
  {
    assert s == [s[0]] + s[1..];
    IdsOfConcat([s[0]], s[1..], key);
  }

  predicate DistinctKeys<T>(s: seq<T>, key: T -> int) {
    forall i, j :: 0 <= i < j < |s| ==> key(s[i]) != key(s[j])
  }

  /** `page.filter(x => !prev.some(y => y.id === x.id))`. */
  function Unseen<T>(prev: seq<T>, page: seq<T>, key: T -> int): (r: seq<T>)
    ensures |r| <= |page|
  {
    if page == [] then []
    else (if key(page[0]) in IdsOf(prev, key) then [] else [page[0]]) + Unseen(prev, page[1..], key)
  }

  /** The merge filter's test: the record's id is not yet accumulated. */
  function IsFresh<T>(prev: seq<T>, key: T -> int): T -> bool {
    x => key(x) !in IdsOf(prev, key)
  }

  /** The tail the merge appends is `Array.filter` over the page with the
      freshness test, so it keeps the page's order (see `FilterSplit`). */
  lemma {:induction false} UnseenIsFilter<T>(prev: seq<T>, page: seq<T>, key: T -> int)
    ensures Unseen(prev, page, key) == Filter(page, IsFresh(prev, key))
  {
    if page != [] {
      UnseenIsFilter(prev, page[1..], key);
    }
  }

  /** `[...prev, ...page.filter(x => !prev.some(y => y.id === x.id))]`. */
  function Merge<T>(prev: seq<T>, page: seq<T>, key: T -> int): seq<T> {
    prev + Unseen(prev, page, key)
  }

  /** What the filter keeps: exactly the records of the page whose id is not
      already accumulated. */
  lemma {:induction false} UnseenMembers<T>(prev: seq<T>, page: seq<T>, key: T -> int)
    ensures forall i :: 0 <= i < |Unseen(prev, page, key)| ==>
              Unseen(prev, page, key)[i] in page && key(Unseen(prev, page, key)[i]) !in IdsOf(prev, key)
    ensures forall i :: 0 <= i < |page| && key(page[i]) !in IdsOf(prev, key) ==> page[i] in Unseen(prev, page, key)
  {
    if page != [] {
      UnseenMembers(prev, page[1..], key);
      var r := Unseen(prev, page, key);
      var head := if key(page[0]) in IdsOf(prev, key) then [] else [page[0]];
      var tail := Unseen(prev, page[1..], key);
      assert r == head + tail;
      forall i | 0 <= i < |r| ensures r[i] in page && key(r[i]) !in IdsOf(prev, key) {
        if i >= |head| {
          assert r[i] == tail[i - |head|];
          assert tail[i - |head|] in page[1..];
        }
      }
      forall i | 0 <= i < |page| && key(page[i]) !in IdsOf(prev, key) ensures page[i] in r {
        if i > 0 {
          assert page[i] == page[1..][i - 1];
          assert page[i] in tail;
        }
      }
    }
  }

  /** The merged list starts with the accumulated list, unchanged, and its tail
      is made of page records whose ids were not accumulated; every such page
      record is in that tail. */
  lemma MergeShape<T>(prev: seq<T>, page: seq<T>, key: T -> int)
    ensures |prev| <= |Merge(prev, page, key)| <= |prev| + |page|
    ensures Merge(prev, page, key)[..|prev|] == prev
    ensures forall i :: |prev| <= i < |Merge(prev, page, key)| ==>
              Merge(prev, page, key)[i] in page && key(Merge(prev, page, key)[i]) !in IdsOf(prev, key)
    ensures forall i :: 0 <= i < |page| && key(page[i]) !in IdsOf(prev, key) ==>
              page[i] in Merge(prev, page, key)[|prev|..]
  {
    var r := Merge(prev, page, key);
    var tail := Unseen(prev, page, key);
    UnseenMembers(prev, page, key);
    assert r[|prev|..] == tail;
    forall i | |prev| <= i < |r| ensures r[i] in page && key(r[i]) !in IdsOf(prev, key) {
      assert r[i] == tail[i - |prev|];
    }
  }

  /** The appended tail keeps page order: filtering a page in two parts is
      filtering it whole. */
  lemma {:induction false} UnseenSplit<T>(prev: seq<T>, a: seq<T>, b: seq<T>, key: T -> int)
    ensures Unseen(prev, a + b, key) == Unseen(prev, a, key) + Unseen(prev, b, key)
  {
    if a != [] {
      var ab := a + b;
      assert ab[0] == a[0] && ab[1..] == a[1..] + b;
      var head := if key(a[0]) in IdsOf(prev, key) then [] else [a[0]];
      assert Unseen(prev, ab, key) == head + Unseen(prev, a[1..] + b, key);
      assert Unseen(prev, a, key) == head + Unseen(prev, a[1..], key);
      UnseenSplit(prev, a[1..], b, key);
    } else {
      assert a + b == b;
    }
  }

  /** Every id of the page is an id of the merged list. */
  lemma {:induction false} MergeCoversPage<T>(prev: seq<T>, page: seq<T>, key: T -> int)
    ensures IdsOf(page, key) <= IdsOf(Merge(prev, page, key), key)
  {
    var r := Merge(prev, page, key);
    var tail := Unseen(prev, page, key);
    UnseenMembers(prev, page, key);
    forall k | k in IdsOf(page, key) ensures k in IdsOf(r, key) {
      var i :| 0 <= i < |page| && key(page[i]) == k;
      if k in IdsOf(prev, key) {
        var j :| 0 <= j < |prev| && key(prev[j]) == k;
        assert r[j] == prev[j];
      } else {
        assert page[i] in tail;
        var j :| 0 <= j < |tail| && tail[j] == page[i];
        assert r[|prev| + j] == page[i];
      }
    }
  }

  /** Nothing of a page whose ids are all known survives the filter. */
  lemma {:induction false} UnseenOfKnown<T>(prev: seq<T>, page: seq<T>, key: T -> int)
    requires IdsOf(page, key) <= IdsOf(prev, key)
    ensures Unseen(prev, page, key) == []
  {
    if page != [] {
      IdsOfTail(page, key);
      UnseenOfKnown(prev, page[1..], key);
    }
  }

  /** Merging the same page twice gives the same list as merging it once. */
  lemma MergeIdempotent<T>(prev: seq<T>, page: seq<T>, key: T -> int)
    ensures Merge(Merge(prev, page, key), page, key) == Merge(prev, page, key)
  {
    var once := Merge(prev, page, key);
    MergeCoversPage(prev, page, key);
    UnseenOfKnown(once, page, key);
  }

  /** Duplicate-free accumulated list and duplicate-free page give a
      duplicate-free merge. */
  lemma {:induction false} MergeKeepsDistinct<T>(prev: seq<T>, page: seq<T>, key: T -> int)
    requires DistinctKeys(prev, key) && DistinctKeys(page, key)
    ensures DistinctKeys(Merge(prev, page, key), key)
    decreases |page|
  {
    if page != [] {
      var rest := page[1..];
      assert DistinctKeys(rest, key) by {
        forall i, j | 0 <= i < j < |rest| ensures key(rest[i]) != key(rest[j]) {
          assert rest[i] == page[i + 1] && rest[j] == page[j + 1];
        }
      }
      assert key(page[0]) !in IdsOf(rest, key) by {
        forall i | 0 <= i < |rest| ensures key(rest[i]) != key(page[0]) {
          assert rest[i] == page[i + 1];
        }
      }
      var head := if key(page[0]) in IdsOf(prev, key) then [] else [page[0]];
      var mid := prev + head;
      assert DistinctKeys(mid, key) by {
        forall i, j | 0 <= i < j < |mid| ensures key(mid[i]) != key(mid[j]) {
          if j >= |prev| {
            assert mid[j] == page[0] && mid[i] == prev[i];
          }
        }
      }
      MergeKeepsDistinct(mid, rest, key);
      IdsOfConcat(prev, head, key);
      UnseenIgnoresAbsent(prev, head, rest, key);
      assert Merge(prev, page, key) == Merge(mid, rest, key);
    }
  }

  /** Ids that never occur in the page do not affect what is dropped from it. */
  lemma {:induction false} UnseenIgnoresAbsent<T>(prev: seq<T>, head: seq<T>, page: seq<T>, key: T -> int)
    requires IdsOf(head, key) !! IdsOf(page, key)
    ensures Unseen(prev + head, page, key) == Unseen(prev, page, key)
  {
    if page != [] {
      IdsOfTail(page, key);
      IdsOfConcat(prev, head, key);
      UnseenIgnoresAbsent(prev, head, page[1..], key);
    }
  }

  /** A page that shares no id with the accumulated list is appended whole. */
  lemma MergeDisjoint<T>(prev: seq<T>, page: seq<T>, key: T -> int)
    requires IdsOf(prev, key) !! IdsOf(page, key)
    ensures Merge(prev, page, key) == prev + page
  {
    UnseenOfFresh(prev, page, key);
  }

  lemma {:induction false} UnseenOfFresh<T>(prev: seq<T>, page: seq<T>, key: T -> int)
    requires IdsOf(prev, key) !! IdsOf(page, key)
    ensures Unseen(prev, page, key) == page
  {
    if page != [] {
      IdsOfTail(page, key);
      UnseenOfFresh(prev, page[1..], key);
      assert page == [page[0]] + page[1..];
    }
  }

  /** The merge drops only ids already accumulated, not repeats inside one page:
      a page holding one id twice puts it twice into an empty list. */
  lemma MergeKeepsRepeatsWithinPage<T>(x: T, y: T, key: T -> int)
    requires key(x) == key(y)
    ensures Merge([], [x, y], key) == [x, y]
    ensures !DistinctKeys(Merge([], [x, y], key), key)
  {
    MergeDisjoint([], [x, y], key);
    var r := [x, y];
    assert key(r[0]) == key(r[1]);
  }

  /** A worked example: a page overlapping the list in one record. */
  lemma MergeExample<T>(x: T, y: T, z: T, key: T -> int)
    requires key(x) != key(y) && key(y) != key(z) && key(x) != key(z)
    ensures Merge([x, y], [y, z], key) == [x, y, z]
  {
    var prev := [x, y];
    assert IdsOf(prev, key) == {key(x), key(y)} by {
      assert prev[0] == x && prev[1] == y;
    }
    assert [y, z][1..] == [z];
    assert Unseen(prev, [y, z], key) == Unseen(prev, [z], key);
    assert Unseen(prev, [z], key) == [z] + Unseen(prev, [], key);
  }
}
