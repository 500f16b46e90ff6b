/**
 * What `processLinks` guarantees, and the one place where it does not do
 * what its filter intends: with attach targets, the survivors of the filter
 * are paired with the targets by their position among the survivors.
 */
module AnnotateProperties {
  import opened Wrappers
  import opened Text
  import opened VideoId
  import opened Marker
  import opened Annotate

  /** The writes only ever append to class attributes. */
  lemma {:induction false} ApplyWritesGrows(d: seq<string>, plan: seq<Write>, m1: nat, m2: nat, n: nat)
    requires m1 <= m2 <= |plan| && Fits(|d|, plan) && n < |d|
    ensures ApplyWrites(d, plan, m1)[n] <= ApplyWrites(d, plan, m2)[n]
    decreases m2
  {
    if m1 < m2 {
      ApplyWritesGrows(d, plan, m1, m2 - 1, n);
      var a := ApplyWrites(d, plan, m1)[n];
      var b := ApplyWrites(d, plan, m2 - 1)[n];
      var c := ApplyWrites(d, plan, m2)[n];
      assert b <= c;
      assert c[..|a|] == b[..|a|];
    }
  }

  /** An element no write names keeps its class attribute. */
  lemma {:induction false} ApplyWritesUntouched(d: seq<string>, plan: seq<Write>, m: nat, n: nat)
    requires m <= |plan| && Fits(|d|, plan) && n < |d|
    requires forall j :: 0 <= j < m ==> plan[j].node != n
    ensures ApplyWrites(d, plan, m)[n] == d[n]
  {
    if m > 0 {
      ApplyWritesUntouched(d, plan, m - 1, n);
    }
  }

  /** An element named by exactly one write receives exactly that write's text. */
  lemma {:induction false} ApplyWritesOnce(d: seq<string>, plan: seq<Write>, m: nat, j0: nat)
    requires j0 < m <= |plan| && Fits(|d|, plan)
    requires forall j :: 0 <= j < m && j != j0 ==> plan[j].node != plan[j0].node
    ensures ApplyWrites(d, plan, m)[plan[j0].node] == d[plan[j0].node] + plan[j0].text
  {
    if m - 1 == j0 {
      ApplyWritesUntouched(d, plan, j0, plan[j0].node);
    } else {
      ApplyWritesOnce(d, plan, m - 1, j0);
    }
  }

  /** Once a write has appended a marked text, its element stays marked. */
  lemma ApplyWritesMarks(d: seq<string>, plan: seq<Write>, m: nat, j0: nat)
    requires j0 < m <= |plan| && Fits(|d|, plan) && Contains(plan[j0].text, MarkerPrefix)
    ensures Contains(ApplyWrites(d, plan, m)[plan[j0].node], MarkerPrefix)
  {
    var n := plan[j0].node;
    var before := ApplyWrites(d, plan, j0)[n];
    var after := ApplyWrites(d, plan, j0 + 1)[n];
    assert after == before + plan[j0].text;
    ContainsAfterPrefix(before, plan[j0].text, MarkerPrefix);
    ApplyWritesGrows(d, plan, j0 + 1, m, n);
    ContainsExtended(after, ApplyWrites(d, plan, m)[n], MarkerPrefix);
  }

  /** Writes of empty texts change nothing. */
  lemma {:induction false} ApplyWritesIdentity(d: seq<string>, plan: seq<Write>, m: nat)
    requires m <= |plan| && Fits(|d|, plan)
    requires forall j :: 0 <= j < m ==> plan[j].text == ""
    ensures ApplyWrites(d, plan, m) == d
  {
    if m > 0 {
      ApplyWritesIdentity(d, plan, m - 1);
      assert d[plan[m - 1].node] + "" == d[plan[m - 1].node];
    }
  }

  /** The text appended for a link with a video id carries the marker prefix unless both parts are skipped. */
  lemma AppendedIsMarked(link: Anchor, history: map<string, int>, watchLater: map<string, int>, options: ClassOptions)
    requires !(options.skipHistory && options.skipWatchLater) && GetVideoBv(link.href).0
    ensures Contains(Appended(link, history, watchLater, options), MarkerPrefix)
  {
    var id := GetVideoBv(link.href).1;
    NewClassIsMarked(id, history, watchLater, options);
    ContainsAfterPrefix(" ", NewClassForLink(id, history, watchLater, options), MarkerPrefix);
  }

  /**
   * With the intended pairing, the `j`-th write goes to the element the filter
   * inspected for the `j`-th survivor, and appends that survivor's classes.
   */
  lemma IntendedPlanWrites(d: seq<string>, links: seq<Anchor>, history: map<string, int>, watchLater: map<string, int>,
                           targets: Option<seq<nat>>, options: ClassOptions)
    requires WellFormed(|d|, links, targets)
    ensures var kept := Kept(d, links, targets, |links|);
            var plan := PlanIntended(d, links, history, watchLater, targets, options);
            && |plan| == |kept|
            && (forall j :: 0 <= j < |kept| ==> plan[j].node == FilterNode(links, targets, kept[j]))
            && (forall j :: 0 <= j < |kept| ==> plan[j].text == Appended(links[kept[j]], history, watchLater, options))
            && Fits(|d|, plan)
  {
    var kept := Kept(d, links, targets, |links|);
    forall j | 0 <= j < |kept|
      ensures PlanIntended(d, links, history, watchLater, targets, options)[j]
           == WriteFor(links[kept[j]], AttachIntended(targets, kept)[j], history, watchLater, options)
    {
      PlanAt(links, kept, AttachIntended(targets, kept), history, watchLater, options, j);
    }
  }

  /** A survivor's position in the filtered list; no other position holds the same link. */
  lemma KeptPosition(kept: seq<nat>, i: nat) returns (j0: nat)
    requires i in kept
    requires forall j, j' :: 0 <= j < j' < |kept| ==> kept[j] < kept[j']
    ensures j0 < |kept| && kept[j0] == i
    ensures forall j :: 0 <= j < |kept| && j != j0 ==> kept[j] != i
  {
    j0 :| 0 <= j0 < |kept| && kept[j0] == i;
  }

  /** Elements already carrying a marker class are never modified. */
  lemma IntendedSkipsMarked(d: seq<string>, links: seq<Anchor>, history: map<string, int>, watchLater: map<string, int>,
                            targets: Option<seq<nat>>, options: ClassOptions, n: nat)
    requires WellFormed(|d|, links, targets) && n < |d| && Contains(d[n], MarkerPrefix)
    ensures ProcessIntended(d, links, history, watchLater, targets, options)[n] == d[n]
  {
    var kept := Kept(d, links, targets, |links|);
    var plan := PlanIntended(d, links, history, watchLater, targets, options);
    IntendedPlanWrites(d, links, history, watchLater, targets, options);
    forall j | 0 <= j < |plan|
      ensures plan[j].node != n
    {
      // the written element was unmarked, element n is marked
      assert !Contains(d[plan[j].node], MarkerPrefix);
    }
    ApplyWritesUntouched(d, plan, |plan|, n);
  }

  /**
   * When the inspected elements are distinct, each one receives exactly one
   * append if it was unmarked and none otherwise.
   */
  lemma IntendedAppendsOnce(d: seq<string>, links: seq<Anchor>, history: map<string, int>, watchLater: map<string, int>,
                            targets: Option<seq<nat>>, options: ClassOptions, i: nat)
    requires WellFormed(|d|, links, targets) && i < |links|
    requires forall a, b :: 0 <= a < b < |links| ==> FilterNode(links, targets, a) != FilterNode(links, targets, b)
    ensures var n := FilterNode(links, targets, i);
            ProcessIntended(d, links, history, watchLater, targets, options)[n]
            == d[n] + (if Unmarked(d[n]) then Appended(links[i], history, watchLater, options) else "")
  {
    var n := FilterNode(links, targets, i);
    if Unmarked(d[n]) {
      IntendedAppendsUnmarked(d, links, history, watchLater, targets, options, i);
    } else {
      IntendedSkipsMarked(d, links, history, watchLater, targets, options, n);
      assert d[n] + "" == d[n];
    }
  }

  /** The unmarked case: the inspected element gains the link's classes exactly once. */
  lemma IntendedAppendsUnmarked(d: seq<string>, links: seq<Anchor>, history: map<string, int>,
                                watchLater: map<string, int>, targets: Option<seq<nat>>, options: ClassOptions, i: nat)
    requires WellFormed(|d|, links, targets) && i < |links| && Unmarked(d[FilterNode(links, targets, i)])
    requires forall a, b :: 0 <= a < b < |links| ==> FilterNode(links, targets, a) != FilterNode(links, targets, b)
    ensures var n := FilterNode(links, targets, i);
            ProcessIntended(d, links, history, watchLater, targets, options)[n]
            == d[n] + Appended(links[i], history, watchLater, options)
  {
    var kept := Kept(d, links, targets, |links|);
    var plan := PlanIntended(d, links, history, watchLater, targets, options);
    IntendedPlanWrites(d, links, history, watchLater, targets, options);
    var j0 := KeptPosition(kept, i);
    ApplyWritesOnce(d, plan, |plan|, j0);
  }

  /** An element that no link inspects keeps its class attribute. */
  lemma IntendedUntouched(d: seq<string>, links: seq<Anchor>, history: map<string, int>, watchLater: map<string, int>,
                          targets: Option<seq<nat>>, options: ClassOptions, n: nat)
    requires WellFormed(|d|, links, targets) && n < |d|
    requires forall i :: 0 <= i < |links| ==> FilterNode(links, targets, i) != n
    ensures ProcessIntended(d, links, history, watchLater, targets, options)[n] == d[n]
  {
    var plan := PlanIntended(d, links, history, watchLater, targets, options);
    IntendedPlanWrites(d, links, history, watchLater, targets, options);
    ApplyWritesUntouched(d, plan, |plan|, n);
  }

  /** After one pass every link with a video id has a marked inspected element. */
  lemma IntendedMarksVideos(d: seq<string>, links: seq<Anchor>, history: map<string, int>, watchLater: map<string, int>,
                            targets: Option<seq<nat>>, options: ClassOptions, i: nat)
    requires WellFormed(|d|, links, targets) && i < |links| && !(options.skipHistory && options.skipWatchLater)
    ensures GetVideoBv(links[i].href).0 ==>
              Contains(ProcessIntended(d, links, history, watchLater, targets, options)[FilterNode(links, targets, i)],
                       MarkerPrefix)
  {
    if GetVideoBv(links[i].href).0 {
      var n := FilterNode(links, targets, i);
      var kept := Kept(d, links, targets, |links|);
      var plan := PlanIntended(d, links, history, watchLater, targets, options);
      IntendedPlanWrites(d, links, history, watchLater, targets, options);
      if Unmarked(d[n]) {
        assert i in kept;
        var j0 :| 0 <= j0 < |kept| && kept[j0] == i;
        AppendedIsMarked(links[i], history, watchLater, options);
        ApplyWritesMarks(d, plan, |plan|, j0);
      } else {
        ApplyWritesGrows(d, plan, 0, |plan|, n);
        ContainsExtended(d[n], ProcessIntended(d, links, history, watchLater, targets, options)[n], MarkerPrefix);
      }
    }
  }

  /** A second pass over the same links changes nothing. */
  lemma IntendedIdempotent(d: seq<string>, links: seq<Anchor>, history: map<string, int>, watchLater: map<string, int>,
                           targets: Option<seq<nat>>, options: ClassOptions)
    requires WellFormed(|d|, links, targets) && !(options.skipHistory && options.skipWatchLater)
    ensures var once := ProcessIntended(d, links, history, watchLater, targets, options);
            ProcessIntended(once, links, history, watchLater, targets, options) == once
  {
    var once := ProcessIntended(d, links, history, watchLater, targets, options);
    var kept := Kept(once, links, targets, |links|);
    var plan := PlanIntended(once, links, history, watchLater, targets, options);
    IntendedPlanWrites(once, links, history, watchLater, targets, options);
    forall j | 0 <= j < |plan|
      ensures plan[j].text == ""
    {
      // a survivor of the second filter is unmarked, so its link has no video id
      IntendedMarksVideos(d, links, history, watchLater, targets, options, kept[j]);
    }
    ApplyWritesIdentity(once, plan, |plan|);
  }

  /** Without attach targets the pairing question does not arise: both readings agree. */
  lemma AsWrittenWithoutTargets(d: seq<string>, links: seq<Anchor>, history: map<string, int>,
                                watchLater: map<string, int>, options: ClassOptions)
    requires WellFormed(|d|, links, None)
    ensures ProcessAsWritten(d, links, history, watchLater, None, options)
         == ProcessIntended(d, links, history, watchLater, None, options)
  {
    var kept := Kept(d, links, None, |links|);
    assert AttachAsWritten(None, kept) == AttachIntended(None, kept);
    assert PlanAsWritten(d, links, history, watchLater, None, options)
        == PlanIntended(d, links, history, watchLater, None, options);
  }

  /** `processLinks(links, …, null, …)` never modifies a link already carrying a marker class. */
  lemma ProcessLinksSkipsMarked(d: seq<string>, links: seq<Anchor>, history: map<string, int>,
                                watchLater: map<string, int>, options: ClassOptions, n: nat)
    requires WellFormed(|d|, links, None) && n < |d| && Contains(d[n], MarkerPrefix)
    ensures ProcessAsWritten(d, links, history, watchLater, None, options)[n] == d[n]
  {
    AsWrittenWithoutTargets(d, links, history, watchLater, options);
    IntendedSkipsMarked(d, links, history, watchLater, None, options, n);
  }

  /**
   * `processLinks` as written, with or without attach targets, leaves every
   * element that no link inspects as it was: the misrouted writes still land
   * on inspected elements, only on the wrong ones.
   */
  lemma ProcessLinksUntouched(d: seq<string>, links: seq<Anchor>, history: map<string, int>,
                              watchLater: map<string, int>, targets: Option<seq<nat>>, options: ClassOptions, n: nat)
    requires WellFormed(|d|, links, targets) && n < |d|
    requires forall i :: 0 <= i < |links| ==> FilterNode(links, targets, i) != n
    ensures ProcessAsWritten(d, links, history, watchLater, targets, options)[n] == d[n]
  {
    var kept := Kept(d, links, targets, |links|);
    var attach := AttachAsWritten(targets, kept);
    var plan := PlanAsWritten(d, links, history, watchLater, targets, options);
    forall j | 0 <= j < |plan|
      ensures plan[j].node < |d| && plan[j].node != n
    {
      AttachAsWrittenAt(targets, kept, j);
      PlanAt(links, kept, attach, history, watchLater, options, j);
      // the `j`-th write goes to the `j`-th target, or to the survivor's own link
      assert plan[j].node == FilterNode(links, targets, if targets.None? then kept[j] else j);
    }
    ApplyWritesUntouched(d, plan, |plan|, n);
  }

  /** A link whose inspected element is unmarked is appended to the survivors before it. */
  lemma KeptStep(d: seq<string>, links: seq<Anchor>, targets: Option<seq<nat>>, k: nat)
    requires WellFormed(|d|, links, targets) && 0 < k <= |links|
    requires Unmarked(d[FilterNode(links, targets, k - 1)])
    ensures Kept(d, links, targets, k) == Kept(d, links, targets, k - 1) + [k - 1]
  {
  }

  /** A link whose inspected element is marked is dropped. */
  lemma KeptSkip(d: seq<string>, links: seq<Anchor>, targets: Option<seq<nat>>, k: nat)
    requires WellFormed(|d|, links, targets) && 0 < k <= |links|
    requires !Unmarked(d[FilterNode(links, targets, k - 1)])
    ensures Kept(d, links, targets, k) == Kept(d, links, targets, k - 1)
  {
  }

  /** The indices `0, 1, …, k - 1` in order. */
  function Upto(k: nat): (r: seq<nat>)
    ensures |r| == k
  {
    if k == 0 then [] else Upto(k - 1) + [k - 1]
  }

  /** Position `j` of `Upto(k)` holds `j`. */
  lemma {:induction false} UptoAt(k: nat, j: nat)
    requires j < k
    ensures Upto(k)[j] == j
  {
    if j < k - 1 {
      UptoAt(k - 1, j);
    }
  }

  /** When the first `n` inspected elements are unmarked, each of the first `k <= n` links survives the filter, in order. */
  lemma {:induction false} KeptEverything(d: seq<string>, links: seq<Anchor>, targets: Option<seq<nat>>, n: nat, k: nat)
    requires WellFormed(|d|, links, targets) && k <= n <= |links|
    requires forall i :: 0 <= i < n ==> Unmarked(d[FilterNode(links, targets, i)])
    ensures Kept(d, links, targets, k) == Upto(k)
  {
    if k > 0 {
      KeptEverything(d, links, targets, n, k - 1);
      KeptStep(d, links, targets, k);
    }
  }

  /**
   * When the marked inspected elements all come after the unmarked ones
   * (from position `k` on), the filter keeps exactly the first `k` links.
   */
  lemma {:induction false} KeptMarkedLast(d: seq<string>, links: seq<Anchor>, targets: Option<seq<nat>>, k: nat, m: nat)
    requires WellFormed(|d|, links, targets) && k <= m <= |links|
    requires forall i :: 0 <= i < k ==> Unmarked(d[FilterNode(links, targets, i)])
    requires forall i :: k <= i < |links| ==> !Unmarked(d[FilterNode(links, targets, i)])
    ensures Kept(d, links, targets, m) == Upto(k)
    decreases m
  {
    if m > k {
      KeptMarkedLast(d, links, targets, k, m - 1);
      KeptSkip(d, links, targets, m);
    } else {
      KeptEverything(d, links, targets, k, k);
    }
  }

  /**
   * The pairing goes wrong only when the filter drops a link that comes
   * before a link it keeps. Whenever no marked inspected element comes before
   * an unmarked one, that is, the unmarked ones are exactly the first `k`, the
   * code as written does what was intended.
   */
  lemma AsWrittenAgreesWhenMarkedLast(d: seq<string>, links: seq<Anchor>, history: map<string, int>,
                                      watchLater: map<string, int>, targets: Option<seq<nat>>,
                                      options: ClassOptions, k: nat)
    requires WellFormed(|d|, links, targets) && k <= |links|
    requires forall i :: 0 <= i < k ==> Unmarked(d[FilterNode(links, targets, i)])
    requires forall i :: k <= i < |links| ==> !Unmarked(d[FilterNode(links, targets, i)])
    ensures ProcessAsWritten(d, links, history, watchLater, targets, options)
         == ProcessIntended(d, links, history, watchLater, targets, options)
  {
    var kept := Kept(d, links, targets, |links|);
    KeptMarkedLast(d, links, targets, k, |links|);
    forall j | 0 <= j < |kept|
      ensures kept[j] == j
    {
      UptoAt(k, j);
    }
    assert AttachAsWritten(targets, kept) == AttachIntended(targets, kept);
  }

  /** In particular, on a page whose inspected elements are all unmarked, the two agree. */
  lemma AsWrittenAgreesWhenUnmarked(d: seq<string>, links: seq<Anchor>, history: map<string, int>,
                                    watchLater: map<string, int>, targets: Option<seq<nat>>, options: ClassOptions)
    requires WellFormed(|d|, links, targets)
    requires forall i :: 0 <= i < |links| ==> Unmarked(d[FilterNode(links, targets, i)])
    ensures ProcessAsWritten(d, links, history, watchLater, targets, options)
         == ProcessIntended(d, links, history, watchLater, targets, options)
  {
    AsWrittenAgreesWhenMarkedLast(d, links, history, watchLater, targets, options, |links|);
  }

  /**
   * `processLinks(links, …, null, …)` over distinct links appends to each
   * unmarked link exactly once (its classes, or nothing without a video id).
   */
  lemma ProcessLinksAppendsOnce(d: seq<string>, links: seq<Anchor>, history: map<string, int>,
                                watchLater: map<string, int>, options: ClassOptions, i: nat)
    requires WellFormed(|d|, links, None) && i < |links|
    requires forall a, b :: 0 <= a < b < |links| ==> links[a].node != links[b].node
    ensures var n := links[i].node;
            ProcessAsWritten(d, links, history, watchLater, None, options)[n]
            == d[n] + (if Unmarked(d[n]) then Appended(links[i], history, watchLater, options) else "")
  {
    AsWrittenWithoutTargets(d, links, history, watchLater, options);
    assert forall a :: 0 <= a < |links| ==> FilterNode(links, None, a) == links[a].node;
    IntendedAppendsOnce(d, links, history, watchLater, None, options, i);
  }

  /** A second `processLinks(links, …, null, …)` over the same links changes nothing. */
  lemma ProcessLinksIdempotent(d: seq<string>, links: seq<Anchor>, history: map<string, int>,
                               watchLater: map<string, int>, options: ClassOptions)
    requires WellFormed(|d|, links, None) && !(options.skipHistory && options.skipWatchLater)
    ensures var once := ProcessAsWritten(d, links, history, watchLater, None, options);
            ProcessAsWritten(once, links, history, watchLater, None, options) == once
  {
    AsWrittenWithoutTargets(d, links, history, watchLater, options);
    var once := ProcessAsWritten(d, links, history, watchLater, None, options);
    AsWrittenWithoutTargets(once, links, history, watchLater, options);
    IntendedIdempotent(d, links, history, watchLater, None, options);
  }

  /** With captions `t0` (marked) and `t1` (unmarked), only the second link passes the filter. */
  lemma OnlySecondKept(d: seq<string>, links: seq<Anchor>, t0: nat, t1: nat)
    requires |links| == 2 && t0 < |d| && t1 < |d| && WellFormed(|d|, links, Some([t0, t1]))
    requires Contains(d[t0], MarkerPrefix) && !Contains(d[t1], MarkerPrefix)
    ensures Kept(d, links, Some([t0, t1]), 2) == [1]
  {
    var targets := Some([t0, t1]);
    assert FilterNode(links, targets, 0) == t0 && FilterNode(links, targets, 1) == t1;
    assert !Unmarked(d[t0]) && Unmarked(d[t1]);
    assert Kept(d, links, targets, 1) == [];
  }

  /**
   * Two links whose captions are `t0` (already marked) and `t1` (unmarked):
   * the filter keeps only the second link, and as written its classes land on
   * the first caption, `t0`, while `t1` stays unmarked.
   */
  lemma AsWrittenMisroutes(d: seq<string>, links: seq<Anchor>, history: map<string, int>,
                           watchLater: map<string, int>, t0: nat, t1: nat, options: ClassOptions)
    requires |links| == 2 && t0 < |d| && t1 < |d| && t0 != t1 && WellFormed(|d|, links, Some([t0, t1]))
    requires Contains(d[t0], MarkerPrefix) && !Contains(d[t1], MarkerPrefix)
    ensures var r := ProcessAsWritten(d, links, history, watchLater, Some([t0, t1]), options);
            r[t0] == d[t0] + Appended(links[1], history, watchLater, options) && r[t1] == d[t1]
  {
    var targets := Some([t0, t1]);
    OnlySecondKept(d, links, t0, t1);
    var kept := Kept(d, links, targets, 2);
    assert AttachAsWritten(targets, kept) == [Some(t0)];
    var plan := PlanAsWritten(d, links, history, watchLater, targets, options);
    assert plan == [Write(t0, Appended(links[1], history, watchLater, options))];
    assert ApplyWrites(d, plan, 1) == ApplyWrite(d, plan[0]);
  }

  /** The same page with the intended pairing: the classes land on `t1`, and `t0` is left alone. */
  lemma IntendedRoutes(d: seq<string>, links: seq<Anchor>, history: map<string, int>,
                       watchLater: map<string, int>, t0: nat, t1: nat, options: ClassOptions)
    requires |links| == 2 && t0 < |d| && t1 < |d| && t0 != t1 && WellFormed(|d|, links, Some([t0, t1]))
    requires Contains(d[t0], MarkerPrefix) && !Contains(d[t1], MarkerPrefix)
    ensures var r := ProcessIntended(d, links, history, watchLater, Some([t0, t1]), options);
            r[t0] == d[t0] && r[t1] == d[t1] + Appended(links[1], history, watchLater, options)
  {
    var targets := Some([t0, t1]);
    OnlySecondKept(d, links, t0, t1);
    var kept := Kept(d, links, targets, 2);
    assert AttachIntended(targets, kept) == [Some(t1)];
    var plan := PlanIntended(d, links, history, watchLater, targets, options);
    assert plan == [Write(t1, Appended(links[1], history, watchLater, options))];
    assert ApplyWrites(d, plan, 1) == ApplyWrite(d, plan[0]);
  }

  /**
   * So with attach targets `processLinks` is not idempotent: every further
   * pass appends the second link's classes to the first caption again.
   */
  lemma AsWrittenRepeats(d: seq<string>, links: seq<Anchor>, history: map<string, int>,
                         watchLater: map<string, int>, t0: nat, t1: nat, options: ClassOptions)
    requires |links| == 2 && t0 < |d| && t1 < |d| && t0 != t1 && WellFormed(|d|, links, Some([t0, t1]))
    requires Contains(d[t0], MarkerPrefix) && !Contains(d[t1], MarkerPrefix)
    requires GetVideoBv(links[1].href).0
    ensures var once := ProcessAsWritten(d, links, history, watchLater, Some([t0, t1]), options);
            var twice := ProcessAsWritten(once, links, history, watchLater, Some([t0, t1]), options);
            twice[t0] == once[t0] + Appended(links[1], history, watchLater, options) && twice != once
  {
    var once := ProcessAsWritten(d, links, history, watchLater, Some([t0, t1]), options);
    AsWrittenMisroutes(d, links, history, watchLater, t0, t1, options);
    ContainsExtended(d[t0], once[t0], MarkerPrefix);
    AsWrittenMisroutes(once, links, history, watchLater, t0, t1, options);
    var twice := ProcessAsWritten(once, links, history, watchLater, Some([t0, t1]), options);
    assert |twice[t0]| > |once[t0]|;
  }

  /**
   * A concrete page: two links, whose captions are elements 2 and 3; the
   * first caption already carries the class of an earlier pass, and the
   * second link is a video's part-2 address.
   */
  lemma MisroutingExample()
    ensures var d := ["", "", HistoryClass(Unseen), ""];
            var links := [Anchor(0, "/video/BV1"), Anchor(1, "/video/BV1x?p=2&t=30#r/5")];
            var r := ProcessAsWritten(d, links, map[], map[], Some([2, 3]), NoOptions);
            r[2] != d[2] && r[3] == d[3]
  {
    var d := ["", "", HistoryClass(Unseen), ""];
    var links := [Anchor(0, "/video/BV1"), Anchor(1, "/video/BV1x?p=2&t=30#r/5")];
    HistoryClassIsToken(Unseen);
    QueryIsPartOfId();
    AsWrittenMisroutes(d, links, map[], map[], 2, 3, NoOptions);
  }
}
