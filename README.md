# Bilibili History Marker — a verified model of its core

Bilibili History Marker is a userscript for bilibili.com. It marks every
video link on a page with CSS classes that say whether the video is in the
user's watch history (watched to the end, partially, or not at all) and in
their watch-later list. Both lists are fetched from the Bilibili API and
cached in the userscript's storage. A completed fetch is not repeated within
15 minutes; a failed or unfinished one is retried at the next start. Pages are
annotated only once both lists are in the cache.

This project models four parts of that script in Dafny and proves properties of them:

- **`getVideoBv`** (`video_id.dfy`, module `VideoId`): how the video id is
  extracted from a link's `href` with the regular expression
  `/video/([^/]+)`. The leftmost-match, greedy regular-expression search is
  written out as a search over the string.
- **`getNewClassForLink`** (`marker.dfy`, module `Marker`): the marker classes
  built for one video from the two cached maps, where each map sends a video
  id to a playback progress and `-1` means finished. The two `skip` options
  are modelled too. `text.dfy` (module `Text`) holds the string notions this
  needs:
  - `indexOf`;
  - the class list of a `className` attribute, split on whitespace.
- **`addClassForLink` and `processLinks`** (`annotate.dfy`, module
  `Annotate`; properties in `annotate_props.dfy`, module
  `AnnotateProperties`):
  - The document is an `array<string>` of class attributes, and an element is
    an index into it.
  - `processLinks` filters the links whose inspected element carries no
    marker yet, then appends classes to each survivor's receiver.
  - It is modelled as written for links that carry an `href`, including how
    it pairs survivors with attach targets. A corrected variant sits beside
    it (see Findings).
  - Each method is proved against a function that specifies it.
- **The cache** (`cache.dfy`, module `Cache`):
  - `refreshLocalHistory` and `refreshLocalWatchLater` use a strict 15-minute
    threshold, and a timestamp that was never written counts as 0.
  - When a refresh is due, it first writes the empty-string sentinel.
  - `addHistoryToMap` chains requests for pages 0 to 4 and merges them into one
    map (the last write wins). Only after page 4 does it store the timestamp
    and the map; a failed page ends the chain without writing.
  - `addWatchLaterToMap` works the same way with a single request.
  - The readiness gate of `performInitialProgress` proceeds only when neither
    stored map is the sentinel.
  - The storage is a class `HostStorage` whose methods update it in place. Each
    method is proved against a pure function (`HistoryChain`,
    `WatchLaterChain`, `RefreshHistory`, `RefreshWatchLater`), and the
    lemmas are stated about those functions.

`wrappers.dfy` holds the `Option` type.

External inputs become parameters:

- **The clock.** Each refresh reads `Date.now()` once, to decide whether it is
  due (lines 398 and 415). The parameter `now` stands for that reading. The
  chains `addHistoryToMap` and `addWatchLaterToMap` read it again when they
  store the timestamp (lines 362 and 380). The parameter `finishedAt` stands
  for that second reading.
- **The network.** The API's answers are a sequence of `Response` values. The
  request for page `k` is answered by `responses[k]`, and a page past the end
  of the sequence has not been answered yet.

## Model

| member | source | states |
|---|---|---|
| Text.IndexOf | bilibili-history-marker.user.js:261 | `indexOf` returns -1 exactly when the pattern does not occur; otherwise it returns the leftmost position where it occurs |
| Text.TokensOfJoin | bilibili-history-marker.user.js:285-292 | joining two class attributes with a space gives the concatenation of their class lists |
| VideoId.GetVideoBv | bilibili-history-marker.user.js:296-303 | the match succeeds exactly when some `/video/` is followed by a character other than `/`. The id is the maximal `/`-free run after the leftmost such occurrence. On no match the result is `(false, "")` |
| VideoId.MaximalRunUnique | bilibili-history-marker.user.js:297-299 | the captured group is determined by its start position: two maximal `/`-free runs from the same place are equal |
| VideoId.VideoUrlRoundTrip | bilibili-history-marker.user.js:296-303 | a link `base + "/video/" + id + rest` yields `(true, id)` for every non-empty `/`-free id when `rest` is empty or starts with `/`, for any `base` that does not complete a match of its own with that `/video/` |
| VideoId.QueryIsPartOfId | bilibili-history-marker.user.js:297 | the run stops only at `/`: for `/video/BV1x?p=2&t=30#r/5` the query string and the fragment become part of the id `BV1x?p=2&t=30#r`, and the `/` inside the fragment ends it |
| Marker.NewClassForLink | bilibili-history-marker.user.js:305-338 | the result is empty exactly when both the history and the watch-later parts are skipped |
| Marker.NewClassShape | bilibili-history-marker.user.js:311-337 | the result is the history class followed by a space (unless history is skipped), then the watch-later class (unless skipped) |
| Marker.HistoryClassIsToken | bilibili-history-marker.user.js:313-321 | each history class is one whitespace-free class name that starts with `bhm-video-` |
| Marker.WatchLaterClassIsToken | bilibili-history-marker.user.js:326-334 | each watch-later class is one whitespace-free class name that starts with `bhm-video-` |
| Marker.NewClassTokens | bilibili-history-marker.user.js:305-338 | as a class list, the result is exactly the classes of the parts that are not skipped, in order |
| Marker.WatchLaterPageClass | bilibili-history-marker.user.js:236-241 | with the watch-later page's `{ watchLater: "skip" }`, the result is the history class and its trailing space, and its class list is that one class |
| Marker.NewClassIsMarked | bilibili-history-marker.user.js:305-338 | unless both parts are skipped, the result contains the marker prefix the filter looks for |
| Marker.NewClassDecodes | bilibili-history-marker.user.js:313-334 | reading the classes back recovers each status that was not skipped: `-1` is finished, any other recorded progress is partially, an absent id is none; a skipped part shows nothing |
| Marker.SentinelExample | bilibili-history-marker.user.js:314-320 | a video with progress `-1` reads as finished, and an absent video as none |
| Annotate.Appended | bilibili-history-marker.user.js:283-293 | `addClassForLink` appends nothing exactly when the href has no video id |
| Annotate.AddClassTokens | bilibili-history-marker.user.js:283-293 | the receiver keeps its classes and gains the video's marker classes in order. Every other element is unchanged, and without a video id the document is unchanged |
| Annotate.AddClassForLink | bilibili-history-marker.user.js:276-294 | the document afterwards is the old one with the link's text appended to the receiver, which is the attach target or the link itself |
| Annotate.Kept | bilibili-history-marker.user.js:255-262 | the filter keeps exactly the links whose inspected element has no marker class, in their original order, with no repeats |
| Annotate.FilterLinks | bilibili-history-marker.user.js:255-262 | the loop computes exactly the survivors of the filter |
| Annotate.PlanAt | bilibili-history-marker.user.js:263-270 | the `j`-th planned write appends the `j`-th survivor's classes to the `j`-th attach entry |
| Annotate.SurvivorCallback | bilibili-history-marker.user.js:263-270 | one call of the `forEach` callback as written performs exactly the `j`-th planned write, taking the attach target at the survivor's position `j` |
| Annotate.SurvivorCallbackIntended | bilibili-history-marker.user.js:263-270 | the corrected callback performs the `j`-th planned write, taking the attach target of the survivor's original index |
| Annotate.ForEachSurvivor | bilibili-history-marker.user.js:263-273 | the `forEach` performs the planned writes in order; the `j`-th survivor goes with the `j`-th attach target |
| Annotate.ForEachSurvivorIntended | bilibili-history-marker.user.js:263-273 | the corrected `forEach`: each survivor goes with its own attach target |
| Annotate.ProcessLinks | bilibili-history-marker.user.js:248-274 | the document afterwards is the specification `ProcessAsWritten` applied to the old document |
| Annotate.ProcessLinksIntended | bilibili-history-marker.user.js:248-274 | the corrected `processLinks` gives `ProcessIntended` of the old document |
| AnnotateProperties.ApplyWritesGrows | bilibili-history-marker.user.js:285 | `className +=` only ever extends a class attribute |
| AnnotateProperties.ApplyWritesOnce | bilibili-history-marker.user.js:263-273 | an element named by exactly one write receives exactly that write's text |
| AnnotateProperties.AppendedIsMarked | bilibili-history-marker.user.js:283-293 | the appended text for a video link carries the marker prefix unless both parts are skipped |
| AnnotateProperties.IntendedSkipsMarked | bilibili-history-marker.user.js:255-262 | an element that already carries a marker class is never modified |
| AnnotateProperties.IntendedAppendsOnce | bilibili-history-marker.user.js:255-273 | when the inspected elements are distinct, each one gains the link's classes once if it was unmarked, and nothing otherwise |
| AnnotateProperties.IntendedUntouched | bilibili-history-marker.user.js:255-273 | an element that no link inspects keeps its class attribute |
| AnnotateProperties.IntendedMarksVideos | bilibili-history-marker.user.js:255-293 | after one pass, every link with a video id has a marked inspected element |
| AnnotateProperties.IntendedIdempotent | bilibili-history-marker.user.js:248-274 | a second pass over the same links changes nothing |
| AnnotateProperties.AsWrittenWithoutTargets | bilibili-history-marker.user.js:258-270 | without attach targets, the code as written and the corrected version agree |
| AnnotateProperties.ProcessLinksSkipsMarked | bilibili-history-marker.user.js:255-262 | without attach targets, `processLinks` never modifies an already marked link |
| AnnotateProperties.ProcessLinksUntouched | bilibili-history-marker.user.js:248-274 | as written, with or without attach targets, an element that no link inspects keeps its class attribute |
| AnnotateProperties.ProcessLinksAppendsOnce | bilibili-history-marker.user.js:255-273 | without attach targets and with distinct links, each unmarked link gains its classes exactly once |
| AnnotateProperties.ProcessLinksIdempotent | bilibili-history-marker.user.js:248-274 | without attach targets, running `processLinks` twice is the same as running it once |
| AnnotateProperties.KeptEverything | bilibili-history-marker.user.js:255-262 | when the first `n` inspected elements are unmarked, the filter keeps each of the first `k <= n` links, in order |
| AnnotateProperties.KeptMarkedLast | bilibili-history-marker.user.js:255-262 | when the first `k` inspected elements are unmarked and all later ones are marked, the survivors are exactly the first `k` links, in order |
| AnnotateProperties.AsWrittenAgreesWhenMarkedLast | bilibili-history-marker.user.js:255-273 | when every marked inspected element comes after all unmarked ones, the code as written and the corrected version give the same document. So the pairing goes wrong only when a marked inspected element comes before an unmarked one |
| AnnotateProperties.AsWrittenAgreesWhenUnmarked | bilibili-history-marker.user.js:255-273 | on any page whose inspected elements are all unmarked, the code as written and the corrected version give the same document |
| AnnotateProperties.OnlySecondKept | bilibili-history-marker.user.js:255-262 | with a marked first target and an unmarked second target, only the second link survives the filter |
| AnnotateProperties.AsWrittenMisroutes | bilibili-history-marker.user.js:263-270 | as written, the surviving link's classes land on the first, already marked target, and the unmarked target is left untouched |
| AnnotateProperties.IntendedRoutes | bilibili-history-marker.user.js:255-270 | corrected, they land on the link's own target, and the marked one is left untouched |
| AnnotateProperties.AsWrittenRepeats | bilibili-history-marker.user.js:248-274 | as written with attach targets, every further pass appends again, so the procedure is not idempotent |
| AnnotateProperties.MisroutingExample | bilibili-history-marker.user.js:248-274 | a concrete four-element page on which the first caption changes and the second stays unmarked |
| Cache.Merge | bilibili-history-marker.user.js:350-352 | the merged map's ids are the old ids plus the ids of the items |
| Cache.MergeLastWriteWins | bilibili-history-marker.user.js:350-352 | an id takes the progress of its last item |
| Cache.MergeKeepsUnwritten | bilibili-history-marker.user.js:350-352 | an id that no item mentions keeps its progress |
| Cache.MergeConcat | bilibili-history-marker.user.js:345-353 | merging pages one after another into the same map is merging their concatenation |
| Cache.MergeInto | bilibili-history-marker.user.js:350-352 | the `forEach` loop computes `Merge` |
| Cache.HistoryChain | bilibili-history-marker.user.js:340-366 | a chain that aborts stopped at a failed page below 5. A chain that is pending waits at an unanswered page below 5 |
| Cache.HistoryChainStores | bilibili-history-marker.user.js:341-365 | from a given page on, the chain stores exactly when every remaining page up to 4 is answered with a list |
| Cache.HistoryChainMerges | bilibili-history-marker.user.js:345-365 | a chain that stores holds the remaining pages' items merged in order |
| Cache.HistoryChainStopsAt | bilibili-history-marker.user.js:341-359 | the first failed page aborts the chain there, and the first unanswered page is where it waits |
| Cache.HistoryChainResumes | bilibili-history-marker.user.js:344-353 | once more answers arrive, a waiting chain continues from the page it waits at, with the map it has gathered |
| Cache.WatchLaterChain | bilibili-history-marker.user.js:368-389 | it stores exactly when its single request is answered with a list, and then it stores that list merged |
| Cache.RefreshHistoryResult | bilibili-history-marker.user.js:391-406 | after `refreshLocalHistory`, the history is present exactly when either it was fresh and present before, or it was due and all five pages loaded. In the second case the merged items are stored together with the finishing time |
| Cache.UnfinishedRefreshRetries | bilibili-history-marker.user.js:355-358 | a due refresh that does not finish leaves the sentinel and the old timestamp, so every later start is due again |
| Cache.StoredRefreshWaits | bilibili-history-marker.user.js:398 | after a refresh that stored, the next refresh happens exactly when more than 15 minutes have passed since it stored |
| Cache.StartUpGate | bilibili-history-marker.user.js:72 | after both refreshes at start-up, the gate opens exactly when each list is either fresh and stored, or due and fetched completely |
| Cache.HostStorage.AddHistoryToMap | bilibili-history-marker.user.js:340-366 | its outcome is `HistoryChain`, and storage changes only when the chain stores. It requests pages `pageNumber, pageNumber+1, …`, all below 5, ending at page 4 or at the page where it stopped |
| Cache.HostStorage.OnHistoryLoad | bilibili-history-marker.user.js:344-353 | a loaded page is merged, and the chain continues from the next page: the outcome is `HistoryChain` from this page, and this page heads the requests |
| Cache.HostStorage.AddWatchLaterToMap | bilibili-history-marker.user.js:368-389 | its outcome is `WatchLaterChain`; only a loaded answer writes the watch-later keys |
| Cache.HostStorage.RefreshLocalHistory | bilibili-history-marker.user.js:391-406 | it starts exactly when the refresh is due, and the new history keys are `RefreshHistory` of the old ones. The watch-later keys are untouched |
| Cache.HostStorage.RefreshLocalWatchLater | bilibili-history-marker.user.js:408-423 | it starts exactly when the refresh is due, and the new watch-later keys are `RefreshWatchLater` of the old ones. The history keys are untouched |
| Cache.HostStorage.ReadyMaps | bilibili-history-marker.user.js:64-72 | the gate yields both maps exactly when neither stored value is the empty-string sentinel |

## Left out

- Userscript storage, requests and logging (`GM_getValue`, `GM_setValue`, `GM_xmlhttpRequest`, `GM_log`, `GM_addStyle`): storage is the `HostStorage` class, the API answers are parameters, and logging and styles are not modelled.
- JSON: the stored map is a Dafny map rather than its `JSON.stringify` text, and `JSON.parse` is taken to return it unchanged. An empty map is still present (its text is `{}`, not the sentinel).
- Response shape: an `onload` whose `data` cannot be iterated throws and ends the chain without writing. The model treats it like `onerror` (`Failed`).
- JavaScript object keys: the history map is a plain object, so ids such as `__proto__` behave differently from a map. The model treats every id as an ordinary key.
- The `alwaysRefresh` constant is `false` in the source, so the refresh condition is the interval test alone.
- The 2-second polling timer, `clearInterval`, `MutationObserver`s and click listeners are not modelled. `ReadyMaps` models one timer tick, and `StartUpGate` models the gate after both start-up refreshes.
- The hostname dispatch (lines 28-50), the per-page functions `addProgressTo…Page` and `registerViewUpdateTo…Page`, and their CSS selectors are left out. They choose which links, attach targets and class options reach `processLinks`: the video page (:159-164) and the dynamic page (:181-188) pass targets, and the watch-later page passes `{ watchLater: "skip" }` (:236-241, covered by `WatchLaterPageClass`). The dynamic page's observer also calls `addClassForLink` directly for each added item (:208-213); `AddClassForLink` models one such call.
- Elements without an `href`: the watch-later page selects `div.av-about` elements (:230-231), which have no `href`. `getVideoBv` then calls `match` on `undefined` and throws at :297, so that page's pass marks nothing. The model's anchors always carry a string `href`, so this failure is not modelled (not executed).
- Elements are assumed to exist: the `null` elements a selector can return are left out (the requires clauses name valid element indices). In the source a `null` link makes `addClassForLink` throw at :283; in the dynamic page's observer (:207-213) that ends the callback for the rest of its batch. The Findings row uses this behaviour, but the model does not capture it.
- `classOptions` is modelled as two booleans. The source compares `history`/`watchLater` to the string `"skip"`, so any other value means "do not skip".
- Class lists are sequences of class names. The browser's `classList` deduplication and ordering are not modelled; only the `className` text and its whitespace split are.
- The asynchronous interleaving of the two refreshes is not modelled. They touch disjoint storage keys, and each chain is evaluated on the answers given to it. `HistoryChainResumes` covers answers that arrive later.

## Findings

| source | as written | input that shows it | evidently intended | confidence | as-written member | corrected member |
|---|---|---|---|---|---|---|
| bilibili-history-marker.user.js:256-270 | the filter inspects `classAttachTargetElements[i]` with `i` indexing the original list. The `forEach` then passes `classAttachTargetElements[i]` with `i` indexing the filtered list | two links with attach targets `t0` (already marked) and `t1` (unmarked): only link 1 survives, and its classes are appended to `t0`, while `t1` stays unmarked; every later pass appends to `t0` again. Misrouting needs a link whose inspected element is marked to come before one whose inspected element is unmarked. When every marked inspected element comes after all unmarked ones, the two readings agree (`AsWrittenAgreesWhenMarkedLast`). The callers pass targets on the video page (:159-164) and the dynamic page (:181-188), once per page load, so the misrouting needs a caption that is already marked when that pass runs. On the dynamic page the mutation observer (:203-217) marks the captions of added items through `addClassForLink` (:208-213). Two routes give the bad order. In the first, new items are inserted above items that are still unmarked when the pass collects its links. In the second, the observer stops partway through a batch: an added node without `a.bili-dyn-card-video` gives a `null` link, so `link.href` throws at :283 and the rest of that batch stays unmarked. An appended batch of a video item, a non-video item and another video item then leaves a marked caption before an unmarked one, though nothing was inserted above | each survivor is paired with its own attach target, so marked elements are never modified and a second pass changes nothing | high (not executed) | AnnotateProperties.AsWrittenMisroutes | AnnotateProperties.IntendedSkipsMarked |
