/** The paged call history (hooks/calls/use-infinite-calls.ts): which page comes next, the merged
    list with repeated call ids dropped (the first wins), the total, and the debounced end-of-list
    trigger. The query library's fetching flags and the clock are parameters. */
module InfiniteCalls {
  import opened Common

  datatype CallRecord = CallRecord(callId: int, scenarioName: string, grade: string, createdAt: string)

  /** The part of a server page the hook reads; `number` may be missing. */
  datatype PageItem = PageItem(content: seq<CallRecord>, totalElements: int, number: Option<int>, last: bool)

  /** One fetched response; its `item` may be missing. */
  datatype CallsPage = CallsPage(item: Option<PageItem>)

  datatype CallsRequest = CallsRequest(page: int, size: nat)

  const PageSize: nat := 10
  const InitialPageParam: int := 0
  const DebounceMs: int := 500

  /** `queryFn`: the page asked for, ten records per page. */
  function RequestFor(pageParam: int): (r: CallsRequest)
    ensures r.page == pageParam && r.size == 10
  {
    CallsRequest(pageParam, PageSize)
  }

  /** `getNextPageParam`: no next page after a missing item or the last page; otherwise the page
      after the one received, counting a missing number as page 0. */
  function NextPageParam(lastPage: CallsPage): (r: Option<int>)
    ensures r.None? <==> lastPage.item.None? || lastPage.item.value.last
    ensures r.Some? && lastPage.item.value.number.Some? ==> r.value == lastPage.item.value.number.value + 1
    ensures r.Some? && lastPage.item.value.number.None? ==> r.value == 1
  {
    match lastPage.item
    case None => None
    case Some(item) =>
      if item.last then None
      else Some((if item.number.Some? then item.number.value else 0) + 1)
  }

  /** The first request is for page 0, and a page numbered n that is not the last leads to page n + 1. */
  lemma RequestsFollowPageNumbers(n: int, content: seq<CallRecord>, total: int)
    ensures RequestFor(InitialPageParam) == CallsRequest(0, 10)
    ensures NextPageParam(CallsPage(Some(PageItem(content, total, Some(n), false)))) == Some(n + 1)
    ensures NextPageParam(CallsPage(Some(PageItem(content, total, Some(n), true)))) == None
  {
  }

  /** `pages.flatMap((page) => page.item.content)`; a page without an item makes it throw (None). */
  function Flatten(pages: seq<CallsPage>): (r: Option<seq<CallRecord>>)
    ensures r.None? <==> exists k :: 0 <= k < |pages| && pages[k].item.None?
    ensures r.Some? && pages != [] ==> r.value == pages[0].item.value.content + Flatten(pages[1..]).value
    ensures r.Some? && pages == [] ==> r.value == []
  {
    if pages == [] then Some([])
    else match (pages[0].item, Flatten(pages[1..]))
      case (Some(item), Some(rest)) => Some(item.content + rest)
      case (None, _) => None
      case (_, None) =>
        assert forall k :: 0 <= k < |pages| - 1 ==> pages[1..][k] == pages[k + 1];
        None
  }

  /** `self.findIndex((c) => c.callId === id)`: the first position holding `id`, or -1. */
  function FindIndex(xs: seq<CallRecord>, id: int): (r: int)
    ensures -1 <= r < |xs|
    ensures r >= 0 ==> xs[r].callId == id && forall j :: 0 <= j < r ==> xs[j].callId != id
    ensures r == -1 ==> forall j :: 0 <= j < |xs| ==> xs[j].callId != id
  {
    if xs == [] then -1
    else if xs[0].callId == id then 0
    else
      var k := FindIndex(xs[1..], id);
      if k < 0 then -1 else k + 1
  }

  /** The filter from position `i` on: keep `self[i]` exactly when it is where its id first occurs. */
  function FirstsFrom(self: seq<CallRecord>, i: nat): seq<CallRecord>
    requires i <= |self|
    decreases |self| - i
  {
    if i == |self| then []
    else (if FindIndex(self, self[i].callId) == i then [self[i]] else []) + FirstsFrom(self, i + 1)
  }

  /** The hook's merged list: `filter((call, index, self) => index === self.findIndex(...))`. */
  function Dedup(xs: seq<CallRecord>): seq<CallRecord> {
    FirstsFrom(xs, 0)
  }

  /** The ids a list holds. */
  function IdsOf(xs: seq<CallRecord>): set<int> {
    set k | 0 <= k < |xs| :: xs[k].callId
  }

  /** The reference: walk the list once, keeping a record when its id has not been seen. */
  function DedupSeen(xs: seq<CallRecord>, seen: set<int>): seq<CallRecord>
    decreases |xs|
  {
    if xs == [] then []
    else if xs[0].callId in seen then DedupSeen(xs[1..], seen)
    else [xs[0]] + DedupSeen(xs[1..], seen + {xs[0].callId})
  }

  /** No two records share an id. */
  predicate UniqueIds(xs: seq<CallRecord>) {
    forall k, l :: 0 <= k < l < |xs| ==> xs[k].callId != xs[l].callId
  }

  /** `a` is `b` with some elements left out, the rest in order. */
  predicate Subsequence(a: seq<CallRecord>, b: seq<CallRecord>)
    decreases |b|
  {
    if b == [] then a == []
    else (a != [] && a[0] == b[0] && Subsequence(a[1..], b[1..])) || Subsequence(a, b[1..])
  }

  /** A record is kept where its id first occurs exactly when that id is not among the earlier ones. */
  lemma FirstOccurrence(xs: seq<CallRecord>, i: nat)
    requires i < |xs|
    ensures FindIndex(xs, xs[i].callId) == i <==> xs[i].callId !in IdsOf(xs[..i])
  {
    var id := xs[i].callId;
    var r := FindIndex(xs, id);
    if r == i {
      forall k | 0 <= k < i
        ensures xs[..i][k].callId != id
      {
        assert xs[..i][k] == xs[k];
      }
      assert id !in IdsOf(xs[..i]);
    }
    if id !in IdsOf(xs[..i]) {
      forall k | 0 <= k < i
        ensures xs[k].callId != id
      {
        assert xs[..i][k] == xs[k];
        assert xs[k].callId in IdsOf(xs[..i]);
      }
      assert r == i;
    }
  }

  /** The hook's filter computes the reference walk, seeded with the ids before position `i`. */
  lemma {:induction false} FirstsFromIsDedupSeen(xs: seq<CallRecord>, i: nat)
    requires i <= |xs|
    ensures FirstsFrom(xs, i) == DedupSeen(xs[i..], IdsOf(xs[..i]))
    decreases |xs| - i
  {
    if i < |xs| {
      FirstsFromIsDedupSeen(xs, i + 1);
      FirstOccurrence(xs, i);
      assert xs[i..][0] == xs[i] && xs[i..][1..] == xs[i + 1..];
      assert xs[..i + 1] == xs[..i] + [xs[i]];
      assert IdsOf(xs[..i + 1]) == IdsOf(xs[..i]) + {xs[i].callId} by {
        forall id | id in IdsOf(xs[..i + 1]) ensures id in IdsOf(xs[..i]) + {xs[i].callId} {
          var k :| 0 <= k < i + 1 && xs[..i + 1][k].callId == id;
          if k < i {
            assert xs[..i][k] == xs[k];
          }
        }
        forall id | id in IdsOf(xs[..i]) + {xs[i].callId} ensures id in IdsOf(xs[..i + 1]) {
          if id in IdsOf(xs[..i]) {
            var k :| 0 <= k < i && xs[..i][k].callId == id;
            assert xs[..i + 1][k] == xs[k];
          } else {
            assert xs[..i + 1][i] == xs[i];
          }
        }
      }
      if xs[i].callId in IdsOf(xs[..i]) {
        assert IdsOf(xs[..i + 1]) == IdsOf(xs[..i]);
      }
    }
  }

  /** The merged list is the reference walk from an empty set of seen ids. */
  lemma DedupMatchesReference(xs: seq<CallRecord>)
    ensures Dedup(xs) == DedupSeen(xs, {})
  {
    FirstsFromIsDedupSeen(xs, 0);
    assert xs[..0] == [] && xs[0..] == xs;
    assert IdsOf([]) == {};
  }

  /** The walk keeps no seen id, and none twice. */
  lemma {:induction false} DedupSeenUnique(xs: seq<CallRecord>, seen: set<int>)
    ensures forall k :: 0 <= k < |DedupSeen(xs, seen)| ==> DedupSeen(xs, seen)[k].callId !in seen
    ensures UniqueIds(DedupSeen(xs, seen))
    decreases |xs|
  {
    if xs != [] {
      if xs[0].callId in seen {
        DedupSeenUnique(xs[1..], seen);
      } else {
        var rest := DedupSeen(xs[1..], seen + {xs[0].callId});
        DedupSeenUnique(xs[1..], seen + {xs[0].callId});
        var r := [xs[0]] + rest;
        assert forall k :: 1 <= k < |r| ==> r[k] == rest[k - 1];
      }
    }
  }

  /** Every id of the list that has not been seen is kept. */
  lemma {:induction false} DedupSeenCovers(xs: seq<CallRecord>, seen: set<int>)
    ensures forall i :: 0 <= i < |xs| && xs[i].callId !in seen ==> FindIndex(DedupSeen(xs, seen), xs[i].callId) >= 0
    decreases |xs|
  {
    if xs != [] {
      var r := DedupSeen(xs, seen);
      if xs[0].callId in seen {
        DedupSeenCovers(xs[1..], seen);
        forall i | 0 < i < |xs| && xs[i].callId !in seen ensures FindIndex(r, xs[i].callId) >= 0 {
          assert xs[1..][i - 1] == xs[i];
        }
      } else {
        var s' := seen + {xs[0].callId};
        var rest := DedupSeen(xs[1..], s');
        DedupSeenCovers(xs[1..], s');
        assert r[0] == xs[0] && r[1..] == rest;
        forall i | 0 <= i < |xs| && xs[i].callId !in seen ensures FindIndex(r, xs[i].callId) >= 0 {
          if i > 0 && xs[i].callId != xs[0].callId {
            assert xs[1..][i - 1] == xs[i];
            assert FindIndex(rest, xs[i].callId) >= 0;
          }
        }
      }
    }
  }

  /** Each kept record is the first record of the list with its id. */
  lemma {:induction false} DedupSeenFirstWins(xs: seq<CallRecord>, seen: set<int>)
    ensures forall k :: 0 <= k < |DedupSeen(xs, seen)| ==>
      FindIndex(xs, DedupSeen(xs, seen)[k].callId) >= 0 && xs[FindIndex(xs, DedupSeen(xs, seen)[k].callId)] == DedupSeen(xs, seen)[k]
    decreases |xs|
  {
    if xs != [] {
      var r := DedupSeen(xs, seen);
      if xs[0].callId in seen {
        DedupSeenFirstWins(xs[1..], seen);
        DedupSeenUnique(xs[1..], seen);
        forall k | 0 <= k < |r| ensures FindIndex(xs, r[k].callId) >= 0 && xs[FindIndex(xs, r[k].callId)] == r[k] {
          assert r[k].callId != xs[0].callId;
        }
      } else {
        var s' := seen + {xs[0].callId};
        var rest := DedupSeen(xs[1..], s');
        DedupSeenFirstWins(xs[1..], s');
        DedupSeenUnique(xs[1..], s');
        assert r[0] == xs[0];
        forall k | 1 <= k < |r| ensures FindIndex(xs, r[k].callId) >= 0 && xs[FindIndex(xs, r[k].callId)] == r[k] {
          assert r[k] == rest[k - 1];
          assert r[k].callId != xs[0].callId;
        }
      }
    }
  }

  /** The walk only leaves records out. */
  lemma {:induction false} DedupSeenSubsequence(xs: seq<CallRecord>, seen: set<int>)
    ensures Subsequence(DedupSeen(xs, seen), xs)
    decreases |xs|
  {
    if xs != [] {
      if xs[0].callId in seen {
        DedupSeenSubsequence(xs[1..], seen);
      } else {
        var rest := DedupSeen(xs[1..], seen + {xs[0].callId});
        DedupSeenSubsequence(xs[1..], seen + {xs[0].callId});
        assert ([xs[0]] + rest)[1..] == rest;
      }
    }
  }

  /** A list with distinct ids, none of them seen, goes through the walk unchanged. */
  lemma {:induction false} DedupSeenKeepsUnique(xs: seq<CallRecord>, seen: set<int>)
    requires UniqueIds(xs) && forall k :: 0 <= k < |xs| ==> xs[k].callId !in seen
    ensures DedupSeen(xs, seen) == xs
    decreases |xs|
  {
    if xs != [] {
      assert forall k :: 1 <= k < |xs| ==> xs[1..][k - 1] == xs[k];
      DedupSeenKeepsUnique(xs[1..], seen + {xs[0].callId});
      assert xs == [xs[0]] + xs[1..];
    }
  }

  /** The merged list has no two records with one id. */
  lemma DedupUniqueIds(xs: seq<CallRecord>)
    ensures UniqueIds(Dedup(xs))
  {
    DedupMatchesReference(xs);
    DedupSeenUnique(xs, {});
  }

  /** Every id of the pages is in the merged list. */
  lemma DedupKeepsEveryId(xs: seq<CallRecord>)
    ensures forall i :: 0 <= i < |xs| ==> FindIndex(Dedup(xs), xs[i].callId) >= 0
  {
    DedupMatchesReference(xs);
    DedupSeenCovers(xs, {});
  }

  /** Each record of the merged list is the first record of the pages with its id. */
  lemma DedupFirstWins(xs: seq<CallRecord>)
    ensures forall k :: 0 <= k < |Dedup(xs)| ==>
      FindIndex(xs, Dedup(xs)[k].callId) >= 0 && xs[FindIndex(xs, Dedup(xs)[k].callId)] == Dedup(xs)[k]
  {
    DedupMatchesReference(xs);
    DedupSeenFirstWins(xs, {});
  }

  /** The merged list keeps the pages' order, only leaving records out. */
  lemma DedupIsSubsequence(xs: seq<CallRecord>)
    ensures Subsequence(Dedup(xs), xs)
  {
    DedupMatchesReference(xs);
    DedupSeenSubsequence(xs, {});
  }

  /** Merging a merged list changes nothing. */
  lemma DedupIdempotent(xs: seq<CallRecord>)
    ensures Dedup(Dedup(xs)) == Dedup(xs)
  {
    DedupUniqueIds(xs);
    DedupMatchesReference(Dedup(xs));
    DedupSeenKeepsUnique(Dedup(xs), {});
  }

  /** `calls`: the merged pages, or nothing while there is no data; None when a page lacks its item. */
  function Calls(pages: Option<seq<CallsPage>>): (r: Option<seq<CallRecord>>)
    ensures pages.None? ==> r == Some([])
    ensures pages.Some? ==> (r.None? <==> Flatten(pages.value).None?)
    ensures r.Some? ==> UniqueIds(r.value)
    ensures pages.Some? && r.Some? ==> Subsequence(r.value, Flatten(pages.value).value)
    // every call id of the pages survives the merge
    ensures pages.Some? && r.Some? ==> var all := Flatten(pages.value).value;
      forall i :: 0 <= i < |all| ==> FindIndex(r.value, all[i].callId) >= 0
    // each merged record is the first record of the pages with its id
    ensures pages.Some? && r.Some? ==> var all := Flatten(pages.value).value;
      forall k :: 0 <= k < |r.value| ==>
        FindIndex(all, r.value[k].callId) >= 0 && all[FindIndex(all, r.value[k].callId)] == r.value[k]
  {
    if pages.None? then Some([])
    else match Flatten(pages.value)
      case None => None
      case Some(all) =>
        DedupUniqueIds(all);
        DedupIsSubsequence(all);
        DedupKeepsEveryId(all);
        DedupFirstWins(all);
        Some(Dedup(all))
  }

  /** `totalElements`: the first page's total, 0 with no data or no page; the first page's missing
      item makes it throw. */
  function TotalElements(pages: Option<seq<CallsPage>>): (r: Result<int>)
    ensures pages.None? || pages.value == [] ==> r == Ok(0)
    ensures pages.Some? && pages.value != [] && pages.value[0].item.Some? ==> r == Ok(pages.value[0].item.value.totalElements)
    ensures pages.Some? && pages.value != [] && pages.value[0].item.None? ==> r.Err?
  {
    if pages.None? || pages.value == [] then Ok(0)
    else match pages.value[0].item
      case Some(item) => Ok(item.totalElements)
      case None => Err("TypeError")
  }

  /** The state of the query the hook reads when the list end is reached. */
  datatype QueryFlags = QueryFlags(hasNextPage: bool, isFetchingNextPage: bool, isFetching: bool, isLoading: bool)

  /** `onEndReached`'s guard. */
  predicate ShouldFetch(now: int, lastFetchTime: int, flags: QueryFlags) {
    && flags.hasNextPage && !flags.isFetchingNextPage && !flags.isFetching && !flags.isLoading
    && now - lastFetchTime > DebounceMs
  }

  /** `useInfiniteCalls`'s own state: the pull-to-refresh flag and the last triggered fetch time. */
  class CallList {
    var refreshing: bool
    var lastFetchTime: int
    var fetchesRequested: nat
    var refetches: nat

    constructor ()
      ensures !refreshing && lastFetchTime == 0 && fetchesRequested == 0 && refetches == 0
    {
      refreshing := false;
      lastFetchTime := 0;
      fetchesRequested := 0;
      refetches := 0;
    }

    /** `onEndReached` at time `now`: asks for the next page only when one exists, nothing is being
        fetched or loaded, and more than 500 ms passed since the last request; only then is the time
        recorded. */
    method OnEndReached(now: int, flags: QueryFlags) returns (fetched: bool)
      modifies this`lastFetchTime, this`fetchesRequested
      ensures fetched <==> ShouldFetch(now, old(lastFetchTime), flags)
      ensures lastFetchTime == (if fetched then now else old(lastFetchTime))
      ensures fetchesRequested == old(fetchesRequested) + (if fetched then 1 else 0)
    {
      fetched := ShouldFetch(now, lastFetchTime, flags);
      if fetched {
        lastFetchTime := now;
        fetchesRequested := fetchesRequested + 1;
      }
    }

    /** `onRefresh`: the flag is up while the refetch runs and down once it has finished. */
    method OnRefresh()
      modifies this`refreshing, this`refetches
      ensures !refreshing && refetches == old(refetches) + 1
    {
      refreshing := true;
      refetches := refetches + 1;
      refreshing := false;
    }
  }

  /** Two list-end events at most 500 ms apart request at most one page, whatever the query state. */
  method EndReachedTwice(list: CallList, t1: int, t2: int, flags1: QueryFlags, flags2: QueryFlags)
    returns (first: bool, second: bool)
    requires t1 <= t2 <= t1 + DebounceMs
    modifies list
    ensures !(first && second)
    ensures list.fetchesRequested <= old(list.fetchesRequested) + 1
  {
    first := list.OnEndReached(t1, flags1);
    second := list.OnEndReached(t2, flags2);
  }

  lemma DedupExample()
    ensures Dedup([CallRecord(1, "a", "A", "t1"), CallRecord(2, "b", "B", "t2"), CallRecord(1, "c", "C", "t3")])
         == [CallRecord(1, "a", "A", "t1"), CallRecord(2, "b", "B", "t2")]
  {
  }
}
