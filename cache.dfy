/**
 * The local cache of watch history and watch-later progress: two pairs of
 * userscript storage keys, filled from the Bilibili API, and the gate that
 * holds back page annotation until both lists are present. A completed
 * fetch is not repeated within 15 minutes; a failed or unfinished one is
 * retried at the next start.
 *
 * Each list is a `Slot`: `cached` is the stored map (`None` standing for the
 * empty string, which is both the default of an absent key and the sentinel
 * written when a refresh starts), `lastFetch` the stored timestamp in
 * milliseconds (`None` when never written).
 */
module Cache {
  import opened Wrappers

  /** `15 * 60 * 1000`: the minimum time between two fetches of the same list. */
  const RefreshIntervalMs: int := 15 * 60 * 1000

  /** History pages `0 .. 4` are requested; the chain stores once it reaches page 5. */
  const HistoryPageLimit: nat := 5

  /** One item of an API response: a video id and its progress in seconds (`-1` when finished). */
  datatype Entry = Entry(bvid: string, progress: int)

  /**
   * The answer to one API request: `Loaded` when `onload` runs over a list of
   * items, `Failed` when `onerror` runs instead.
   */
  datatype Response = Loaded(entries: seq<Entry>) | Failed

  /**
   * How a chain of requests ends: it stored the merged map, it stopped at a
   * failed page, or it is waiting for the answer to `page` with `merged`
   * gathered so far.
   */
  datatype Outcome =
    | Stored(merged: map<string, int>)
    | Aborted(page: nat)
    | Pending(page: nat, merged: map<string, int>)

  /** The two storage keys of one list. */
  datatype Slot = Slot(cached: Option<map<string, int>>, lastFetch: Option<int>)

  /** `Date.now() - (lastFetch ?? 0) > 15 * 60 * 1000` */
  predicate Due(lastFetch: Option<int>, now: int) {
    now - lastFetch.GetOr(0) > RefreshIntervalMs
  }

  /** `entries.forEach(d => { map[d.bvid] = d.progress; })`: later items overwrite earlier ones. */
  function Merge(m: map<string, int>, entries: seq<Entry>): (r: map<string, int>)
    ensures r.Keys == m.Keys + set e | e in entries :: e.bvid
  {
    if entries == [] then m
    else
      var last := entries[|entries| - 1];
      var before := Merge(m, entries[..|entries| - 1]);
      assert entries == entries[..|entries| - 1] + [last];
      before[last.bvid := last.progress]
  }

  /** An id takes the progress of its last item. */
  lemma {:induction false} MergeLastWriteWins(m: map<string, int>, entries: seq<Entry>, i: nat)
    requires i < |entries|
    requires forall j :: i < j < |entries| ==> entries[j].bvid != entries[i].bvid
    ensures Merge(m, entries)[entries[i].bvid] == entries[i].progress
  {
    if i < |entries| - 1 {
      MergeLastWriteWins(m, entries[..|entries| - 1], i);
    }
  }

  /** An id no item mentions keeps the progress it had. */
  lemma {:induction false} MergeKeepsUnwritten(m: map<string, int>, entries: seq<Entry>, k: string)
    requires k in m
    requires forall j :: 0 <= j < |entries| ==> entries[j].bvid != k
    ensures Merge(m, entries)[k] == m[k]
  {
    if entries != [] {
      MergeKeepsUnwritten(m, entries[..|entries| - 1], k);
    }
  }

  /** Merging two lists one after the other is merging their concatenation. */
  lemma {:induction false} MergeConcat(m: map<string, int>, a: seq<Entry>, b: seq<Entry>)
    ensures Merge(m, a + b) == Merge(Merge(m, a), b)
  {
    if b == [] {
      assert a + b == a;
    } else {
      assert (a + b)[..|a + b| - 1] == a + b[..|b| - 1];
      MergeConcat(m, a, b[..|b| - 1]);
    }
  }

  /** The items of a run of pages, page after page (a failed page has none). */
  function AllEntries(pages: seq<Response>): (es: seq<Entry>)
    ensures pages == [] ==> es == []
  {
    if pages == [] then []
    else (if pages[0].Loaded? then pages[0].entries else []) + AllEntries(pages[1..])
  }

  /** The request for page `k` has been answered with a list. */
  predicate Answered(responses: seq<Response>, k: nat) {
    k < |responses| && responses[k].Loaded?
  }

  /** Every one of the five history pages was answered with a list. */
  predicate AllPagesLoaded(responses: seq<Response>) {
    |responses| >= HistoryPageLimit && forall k :: 0 <= k < HistoryPageLimit ==> responses[k].Loaded?
  }

  /**
   * `addHistoryToMap(page, acc)`, given the answers to the requests for pages
   * `0, 1, …` in order; a page at or past `|responses|` has not been answered yet.
   */
  function HistoryChain(responses: seq<Response>, page: nat, acc: map<string, int>): (o: Outcome)
    ensures o.Aborted? ==> page <= o.page < HistoryPageLimit && o.page < |responses| && responses[o.page].Failed?
    ensures o.Pending? ==> page <= o.page < HistoryPageLimit && |responses| <= o.page
    decreases HistoryPageLimit - page
  {
    if page < HistoryPageLimit then
      if page >= |responses| then Pending(page, acc)
      else match responses[page]
        case Failed => Aborted(page)
        case Loaded(entries) => HistoryChain(responses, page + 1, Merge(acc, entries))
    else Stored(acc)
  }

  /** From `page` on, the chain stores exactly when every remaining page is answered with a list. */
  lemma {:induction false} HistoryChainStores(responses: seq<Response>, page: nat, acc: map<string, int>)
    requires page <= HistoryPageLimit
    ensures HistoryChain(responses, page, acc).Stored?
            <==> forall k :: page <= k < HistoryPageLimit ==> Answered(responses, k)
    decreases HistoryPageLimit - page
  {
    if page < HistoryPageLimit {
      if Answered(responses, page) {
        HistoryChainStores(responses, page + 1, Merge(acc, responses[page].entries));
      } else {
        // page `page` itself is the missing one
        assert !Answered(responses, page);
      }
    }
  }

  /** A chain that stores holds the items of the remaining pages merged in order. */
  lemma {:induction false} HistoryChainMerges(responses: seq<Response>, page: nat, acc: map<string, int>)
    requires page <= HistoryPageLimit <= |responses|
    ensures HistoryChain(responses, page, acc).Stored? ==>
              HistoryChain(responses, page, acc).merged == Merge(acc, AllEntries(responses[page..HistoryPageLimit]))
    decreases HistoryPageLimit - page
  {
    var rest := responses[page..HistoryPageLimit];
    if page == HistoryPageLimit {
      assert rest == [];
    } else if responses[page].Loaded? {
      var entries := responses[page].entries;
      HistoryChainMerges(responses, page + 1, Merge(acc, entries));
      assert rest[1..] == responses[page + 1..HistoryPageLimit];
      MergeConcat(acc, entries, AllEntries(rest[1..]));
    }
  }

  /** The first unanswered or failed page decides where the chain stops. */
  lemma {:induction false} HistoryChainStopsAt(responses: seq<Response>, page: nat, acc: map<string, int>, k: nat)
    requires page <= k < HistoryPageLimit
    requires forall j :: page <= j < k ==> Answered(responses, j)
    ensures k < |responses| && responses[k].Failed? ==> HistoryChain(responses, page, acc) == Aborted(k)
    ensures |responses| <= k ==> HistoryChain(responses, page, acc).Pending? && HistoryChain(responses, page, acc).page == k
    decreases k - page
  {
    if page < k {
      assert Answered(responses, page);
      HistoryChainStopsAt(responses, page + 1, Merge(acc, responses[page].entries), k);
    }
  }

  /**
   * A chain waiting at page `k` continues, once more answers have arrived,
   * exactly as a chain started at `k` with what it had gathered.
   */
  lemma {:induction false} HistoryChainResumes(responses: seq<Response>, later: seq<Response>, page: nat,
                                               acc: map<string, int>)
    requires responses <= later && HistoryChain(responses, page, acc).Pending?
    ensures var o := HistoryChain(responses, page, acc);
            HistoryChain(later, page, acc) == HistoryChain(later, o.page, o.merged)
    decreases HistoryPageLimit - page
  {
    if page < |responses| {
      assert later[page] == responses[page];
      HistoryChainResumes(responses, later, page + 1, Merge(acc, responses[page].entries));
    }
  }

  /** `addWatchLaterToMap(acc)`: one request, `None` while it is unanswered. */
  function WatchLaterChain(response: Option<Response>, acc: map<string, int>): (o: Outcome)
    ensures o.Stored? <==> response.Some? && response.value.Loaded?
    ensures o.Stored? ==> o.merged == Merge(acc, response.value.entries)
    ensures o.Aborted? ==> o.page == 0
  {
    match response
    case None => Pending(0, acc)
    case Some(Failed) => Aborted(0)
    case Some(Loaded(entries)) => Stored(Merge(acc, entries))
  }

  /** The end of a chain as seen in storage: only a stored chain writes, timestamp and map together. */
  function Commit(slot: Slot, outcome: Outcome, finishedAt: int): Slot {
    if outcome.Stored? then Slot(Some(outcome.merged), Some(finishedAt)) else slot
  }

  /**
   * `refreshLocalHistory()`: when due, write the sentinel and start the chain
   * from page 0 with an empty map; otherwise leave storage as it is.
   */
  function RefreshHistory(slot: Slot, now: int, responses: seq<Response>, finishedAt: int): Slot {
    if Due(slot.lastFetch, now) then Commit(slot.(cached := None), HistoryChain(responses, 0, map[]), finishedAt)
    else slot
  }

  /** `refreshLocalWatchLater()`, the same with the single watch-later request. */
  function RefreshWatchLater(slot: Slot, now: int, response: Option<Response>, finishedAt: int): Slot {
    if Due(slot.lastFetch, now) then Commit(slot.(cached := None), WatchLaterChain(response, map[]), finishedAt)
    else slot
  }

  /**
   * After `refreshLocalHistory` the history is present exactly when the
   * refresh was not due and it was present before, or the refresh was due and
   * all five pages loaded; in that case it holds their items merged in order
   * and the finishing time.
   */
  lemma RefreshHistoryResult(slot: Slot, now: int, responses: seq<Response>, finishedAt: int)
    ensures var r := RefreshHistory(slot, now, responses, finishedAt);
            r.cached.Some? <==> if Due(slot.lastFetch, now) then AllPagesLoaded(responses) else slot.cached.Some?
    ensures var r := RefreshHistory(slot, now, responses, finishedAt);
            Due(slot.lastFetch, now) && AllPagesLoaded(responses) ==>
              r == Slot(Some(Merge(map[], AllEntries(responses[..HistoryPageLimit]))), Some(finishedAt))
  {
    HistoryChainStores(responses, 0, map[]);
    if AllPagesLoaded(responses) {
      HistoryChainMerges(responses, 0, map[]);
    }
  }

  /**
   * A due refresh that does not store leaves the sentinel and the old
   * timestamp, so every later start is due again and retries.
   */
  lemma UnfinishedRefreshRetries(slot: Slot, now: int, responses: seq<Response>, finishedAt: int, later: int)
    requires Due(slot.lastFetch, now) && !AllPagesLoaded(responses) && later >= now
    ensures var r := RefreshHistory(slot, now, responses, finishedAt);
            r.cached.None? && r.lastFetch == slot.lastFetch && Due(r.lastFetch, later)
  {
    HistoryChainStores(responses, 0, map[]);
  }

  /**
   * After a refresh that stored at `finishedAt`, a later start refreshes again
   * exactly when more than 15 minutes have passed since then.
   */
  lemma StoredRefreshWaits(slot: Slot, now: int, responses: seq<Response>, finishedAt: int, later: int)
    requires Due(slot.lastFetch, now) && AllPagesLoaded(responses)
    ensures var r := RefreshHistory(slot, now, responses, finishedAt);
            Due(r.lastFetch, later) <==> later > finishedAt + RefreshIntervalMs
  {
    HistoryChainStores(responses, 0, map[]);
  }

  /**
   * At start-up both refreshes run, then the gate opens exactly when both
   * lists are present: each is either fresh and already stored, or due and
   * fetched completely.
   */
  lemma StartUpGate(history: Slot, watchLater: Slot, now: int, historyResponses: seq<Response>,
                    historyDone: int, watchLaterNow: int, watchLaterResponse: Option<Response>, watchLaterDone: int)
    ensures var h := RefreshHistory(history, now, historyResponses, historyDone);
            var w := RefreshWatchLater(watchLater, watchLaterNow, watchLaterResponse, watchLaterDone);
            h.cached.Some? && w.cached.Some?
            <==> && (if Due(history.lastFetch, now) then AllPagesLoaded(historyResponses) else history.cached.Some?)
                 && (if Due(watchLater.lastFetch, watchLaterNow)
                     then watchLaterResponse.Some? && watchLaterResponse.value.Loaded?
                     else watchLater.cached.Some?)
  {
    RefreshHistoryResult(history, now, historyResponses, historyDone);
  }

  /** The `forEach` of an `onload` handler, merging one page into the map gathered so far. */
  method MergeInto(acc: map<string, int>, entries: seq<Entry>) returns (r: map<string, int>)
    ensures r == Merge(acc, entries)
  {
    r := acc;
    for i := 0 to |entries|
      invariant r == Merge(acc, entries[..i])
    {
      assert entries[..i + 1][..i] == entries[..i];
      r := r[entries[i].bvid := entries[i].progress];
    }
    assert entries[..|entries|] == entries;
  }

  /** The userscript storage of the two lists. */
  class HostStorage {
    var history: Slot
    var watchLater: Slot

    constructor (history: Slot, watchLater: Slot)
      ensures this.history == history && this.watchLater == watchLater
    {
      this.history := history;
      this.watchLater := watchLater;
    }

    /**
     * `addHistoryToMap(pageNumber, historyMap)`: request page `pageNumber`
     * and hand its answer to `onload` or `onerror`; at page 5 store the
     * timestamp and the map. `requests` are the pages requested, in order.
     */
    method AddHistoryToMap(pageNumber: nat, historyMap: map<string, int>, responses: seq<Response>, finishedAt: int)
      returns (outcome: Outcome, requests: seq<nat>)
      modifies this
      ensures outcome == HistoryChain(responses, pageNumber, historyMap)
      ensures history == Commit(old(history), outcome, finishedAt) && watchLater == old(watchLater)
      ensures forall k :: 0 <= k < |requests| ==> requests[k] == pageNumber + k && requests[k] < HistoryPageLimit
      ensures outcome.Stored? ==> pageNumber + |requests| >= HistoryPageLimit
      ensures !outcome.Stored? ==> |requests| > 0 && requests[|requests| - 1] == outcome.page
      decreases HistoryPageLimit - pageNumber, 1
    {
      if pageNumber < HistoryPageLimit {
        if pageNumber >= |responses| {
          outcome, requests := Pending(pageNumber, historyMap), [pageNumber];
        } else if responses[pageNumber].Failed? {
          outcome, requests := Aborted(pageNumber), [pageNumber];
        } else {
          outcome, requests := OnHistoryLoad(pageNumber, historyMap, responses, finishedAt);
        }
      } else {
        history := Slot(Some(historyMap), Some(finishedAt));
        outcome, requests := Stored(historyMap), [];
      }
    }

    /** The `onload` handler of page `pageNumber`: merge its items and go on with the next page. */
    method OnHistoryLoad(pageNumber: nat, historyMap: map<string, int>, responses: seq<Response>, finishedAt: int)
      returns (outcome: Outcome, requests: seq<nat>)
      requires pageNumber < HistoryPageLimit && Answered(responses, pageNumber)
      modifies this
      ensures outcome == HistoryChain(responses, pageNumber, historyMap)
      ensures history == Commit(old(history), outcome, finishedAt) && watchLater == old(watchLater)
      ensures forall k :: 0 <= k < |requests| ==> requests[k] == pageNumber + k && requests[k] < HistoryPageLimit
      ensures outcome.Stored? ==> pageNumber + |requests| >= HistoryPageLimit
      ensures !outcome.Stored? ==> |requests| > 0 && requests[|requests| - 1] == outcome.page
      decreases HistoryPageLimit - pageNumber, 0
    {
      var merged := MergeInto(historyMap, responses[pageNumber].entries);
      var rest;
      outcome, rest := AddHistoryToMap(pageNumber + 1, merged, responses, finishedAt);
      requests := [pageNumber] + rest;
    }

    /** `addWatchLaterToMap(watchLaterMap)`: one request; on success store the timestamp and the map. */
    method AddWatchLaterToMap(watchLaterMap: map<string, int>, response: Option<Response>, finishedAt: int)
      returns (outcome: Outcome)
      modifies this
      ensures outcome == WatchLaterChain(response, watchLaterMap)
      ensures watchLater == Commit(old(watchLater), outcome, finishedAt) && history == old(history)
    {
      match response
      case None =>
        outcome := Pending(0, watchLaterMap);
      case Some(Failed) =>
        outcome := Aborted(0);
      case Some(Loaded(entries)) =>
        var merged := MergeInto(watchLaterMap, entries);
        watchLater := Slot(Some(merged), Some(finishedAt));
        outcome := Stored(merged);
    }

    /**
     * `refreshLocalHistory()` started at `now`: the chain, when started, sees
     * `responses` and finishes at `finishedAt`.
     */
    method RefreshLocalHistory(now: int, responses: seq<Response>, finishedAt: int) returns (started: bool)
      modifies this
      ensures started <==> Due(old(history).lastFetch, now)
      ensures history == RefreshHistory(old(history), now, responses, finishedAt) && watchLater == old(watchLater)
    {
      started := now - history.lastFetch.GetOr(0) > RefreshIntervalMs;
      if started {
        history := history.(cached := None);
        var _, _ := AddHistoryToMap(0, map[], responses, finishedAt);
      }
    }

    /** `refreshLocalWatchLater()` started at `now`. */
    method RefreshLocalWatchLater(now: int, response: Option<Response>, finishedAt: int) returns (started: bool)
      modifies this
      ensures started <==> Due(old(watchLater).lastFetch, now)
      ensures watchLater == RefreshWatchLater(old(watchLater), now, response, finishedAt) && history == old(history)
    {
      started := now - watchLater.lastFetch.GetOr(0) > RefreshIntervalMs;
      if started {
        watchLater := watchLater.(cached := None);
        var _ := AddWatchLaterToMap(map[], response, finishedAt);
      }
    }

    /**
     * One tick of the timer in `performInitialProgress`: read both keys and
     * hand out the two maps only when neither is the empty string.
     */
    method ReadyMaps() returns (maps: Option<(map<string, int>, map<string, int>)>)
      ensures maps.Some? <==> history.cached.Some? && watchLater.cached.Some?
      ensures maps.Some? ==> maps.value == (history.cached.value, watchLater.cached.value)
    {
      if history.cached.Some? && watchLater.cached.Some? {
        maps := Some((history.cached.value, watchLater.cached.value));
      } else {
        maps := None;
      }
    }
  }
}
