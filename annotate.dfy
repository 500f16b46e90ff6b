/**
 * `addClassForLink` and `processLinks`: appending marker classes to the
 * elements of a page. The document is modelled as the array of its elements'
 * class attributes (`className`); an element is its index in that array.
 */
module Annotate {
  import opened Wrappers
  import opened Text
  import opened VideoId
  import opened Marker

  /** A link element of the page: its index in the document and its `href`. */
  datatype Anchor = Anchor(node: nat, href: string)

  /** `classAttachTargetElement ?? link`: the element that receives the classes. */
  function Receiver(link: Anchor, target: Option<nat>): nat {
    target.GetOr(link.node)
  }

  /** What `addClassForLink` appends to its receiver. */
  function Appended(link: Anchor, history: map<string, int>, watchLater: map<string, int>,
                    options: ClassOptions): (t: string)
    ensures t == "" <==> !GetVideoBv(link.href).0
  {
    var (isVideo, id) := GetVideoBv(link.href);
    if isVideo then " " + NewClassForLink(id, history, watchLater, options) else ""
  }

  /** One call of `addClassForLink`, seen from the document: `text` appended to element `node`. */
  datatype Write = Write(node: nat, text: string)

  /** The write `addClassForLink(link, …, target, …)` performs. */
  function WriteFor(link: Anchor, target: Option<nat>, history: map<string, int>,
                    watchLater: map<string, int>, options: ClassOptions): Write {
    Write(Receiver(link, target), Appended(link, history, watchLater, options))
  }

  /**
   * `element.className += text`. A write naming no element of the document
   * changes nothing; the well-formedness of the links rules such writes out.
   */
  function ApplyWrite(classNames: seq<string>, w: Write): (r: seq<string>)
    ensures |r| == |classNames|
  {
    if w.node < |classNames| then classNames[w.node := classNames[w.node] + w.text] else classNames
  }

  /**
   * Seen as class lists: the receiver keeps its classes and gains the marker
   * classes of the link's video, in order; without a video id the document is
   * unchanged.
   */
  lemma AddClassTokens(classNames: seq<string>, link: Anchor, history: map<string, int>,
                       watchLater: map<string, int>, target: Option<nat>, options: ClassOptions)
    requires Receiver(link, target) < |classNames|
    ensures var n := Receiver(link, target);
            var (isVideo, id) := GetVideoBv(link.href);
            var r := ApplyWrite(classNames, WriteFor(link, target, history, watchLater, options));
            && (forall k :: 0 <= k < |r| && k != n ==> r[k] == classNames[k])
            && ClassTokens(r[n])
               == ClassTokens(classNames[n]) + (if isVideo then ClassTokens(NewClassForLink(id, history, watchLater, options)) else [])
            && (!isVideo ==> r == classNames)
  {
    var n := Receiver(link, target);
    var (isVideo, id) := GetVideoBv(link.href);
    if isVideo {
      TokensOfJoin(classNames[n], NewClassForLink(id, history, watchLater, options));
      assert classNames[n] + " " + NewClassForLink(id, history, watchLater, options)
          == classNames[n] + (" " + NewClassForLink(id, history, watchLater, options));
    } else {
      assert classNames[n] + "" == classNames[n];
    }
  }

  /** `addClassForLink(link, currentHistoryMap, currentWatchLaterMap, classAttachTargetElement, classOptions)` */
  method AddClassForLink(dom: array<string>, link: Anchor, history: map<string, int>,
                         watchLater: map<string, int>, target: Option<nat>, options: ClassOptions)
    requires Receiver(link, target) < dom.Length
    modifies dom
    ensures dom[..] == ApplyWrite(old(dom[..]), WriteFor(link, target, history, watchLater, options))
  {
    var (isVideo, id) := GetVideoBv(link.href);
    var node := Receiver(link, target);
    if isVideo {
      // `x.className += " " + …` appends the whole right-hand side at once
      dom[node] := dom[node] + (" " + NewClassForLink(id, history, watchLater, options));
    } else {
      assert dom[node] + "" == dom[node];
    }
  }

  /**
   * The links and, when present, the parallel array of attach targets name
   * elements of the document.
   */
  predicate WellFormed(size: nat, links: seq<Anchor>, targets: Option<seq<nat>>) {
    && (forall i :: 0 <= i < |links| ==> links[i].node < size)
    && (targets.Some? ==> |targets.value| == |links|)
    && (targets.Some? ==> forall i :: 0 <= i < |targets.value| ==> targets.value[i] < size)
  }

  /** The element the filter inspects for the `i`-th link: its attach target, or the link itself. */
  function FilterNode(links: seq<Anchor>, targets: Option<seq<nat>>, i: nat): nat
    requires i < |links| && (targets.Some? ==> |targets.value| == |links|)
  {
    if targets.None? then links[i].node else targets.value[i]
  }

  /** The filter's test `className.indexOf("bhm-video-") === -1`. */
  predicate Unmarked(className: string) {
    IndexOf(className, MarkerPrefix) == -1
  }

  /**
   * The indices, among the first `k` links, that pass the filter of
   * `processLinks`, in their original order.
   */
  function Kept(classNames: seq<string>, links: seq<Anchor>, targets: Option<seq<nat>>, k: nat): (kept: seq<nat>)
    requires WellFormed(|classNames|, links, targets) && k <= |links|
    ensures |kept| <= k
    ensures forall j :: 0 <= j < |kept| ==> kept[j] < k && Unmarked(classNames[FilterNode(links, targets, kept[j])])
    ensures forall j, j' :: 0 <= j < j' < |kept| ==> kept[j] < kept[j']
    ensures forall i :: 0 <= i < k && Unmarked(classNames[FilterNode(links, targets, i)]) ==> i in kept
  {
    if k == 0 then []
    else
      var before := Kept(classNames, links, targets, k - 1);
      if Unmarked(classNames[FilterNode(links, targets, k - 1)]) then before + [k - 1] else before
  }

  /**
   * The attach targets as `processLinks` pairs them: the `j`-th link that
   * passed the filter gets `classAttachTargetElements[j]`, `j` counting only
   * the links that passed.
   */
  function AttachAsWritten(targets: Option<seq<nat>>, kept: seq<nat>): (attach: seq<Option<nat>>)
    requires targets.Some? ==> |kept| <= |targets.value|
    ensures |attach| == |kept|
  {
    if targets.None? then seq(|kept|, j => None)
    else seq(|kept|, j requires 0 <= j < |kept| => Some(targets.value[j]))
  }

  /** The pairing evidently intended: each link keeps its own attach target. */
  function AttachIntended(targets: Option<seq<nat>>, kept: seq<nat>): (attach: seq<Option<nat>>)
    requires targets.Some? ==> forall j :: 0 <= j < |kept| ==> kept[j] < |targets.value|
    ensures |attach| == |kept|
  {
    if targets.None? then seq(|kept|, j => None)
    else seq(|kept|, j requires 0 <= j < |kept| => Some(targets.value[kept[j]]))
  }

  /** The writes of the `forEach`, one per survivor of the filter, in order. */
  function Plan(links: seq<Anchor>, kept: seq<nat>, attach: seq<Option<nat>>, history: map<string, int>,
                watchLater: map<string, int>, options: ClassOptions): (plan: seq<Write>)
    requires |kept| == |attach| && forall j :: 0 <= j < |kept| ==> kept[j] < |links|
    ensures |plan| == |kept|
  {
    if kept == [] then []
    else
      var last := |kept| - 1;
      Plan(links, kept[..last], attach[..last], history, watchLater, options)
      + [WriteFor(links[kept[last]], attach[last], history, watchLater, options)]
  }

  /** Every write names an element of the document. */
  predicate Fits(size: nat, plan: seq<Write>) {
    forall j :: 0 <= j < |plan| ==> plan[j].node < size
  }

  /** The class attributes after the first `m` writes. */
  function ApplyWrites(classNames: seq<string>, plan: seq<Write>, m: nat): (r: seq<string>)
    requires m <= |plan|
    ensures |r| == |classNames|
  {
    if m == 0 then classNames else ApplyWrite(ApplyWrites(classNames, plan, m - 1), plan[m - 1])
  }

  /** One more write extends the fold by one step. */
  lemma ApplyWritesStep(classNames: seq<string>, plan: seq<Write>, j: nat, before: seq<string>, after: seq<string>)
    requires j < |plan|
    requires before == ApplyWrites(classNames, plan, j) && after == ApplyWrite(before, plan[j])
    ensures after == ApplyWrites(classNames, plan, j + 1)
  {
  }

  /** The writes of `processLinks` as written. */
  function PlanAsWritten(classNames: seq<string>, links: seq<Anchor>, history: map<string, int>,
                         watchLater: map<string, int>, targets: Option<seq<nat>>,
                         options: ClassOptions): (plan: seq<Write>)
    requires WellFormed(|classNames|, links, targets)
    ensures |plan| == |Kept(classNames, links, targets, |links|)|
  {
    var kept := Kept(classNames, links, targets, |links|);
    Plan(links, kept, AttachAsWritten(targets, kept), history, watchLater, options)
  }

  /** The writes of `processLinks` with each survivor paired with its own attach target. */
  function PlanIntended(classNames: seq<string>, links: seq<Anchor>, history: map<string, int>,
                        watchLater: map<string, int>, targets: Option<seq<nat>>,
                        options: ClassOptions): (plan: seq<Write>)
    requires WellFormed(|classNames|, links, targets)
    ensures |plan| == |Kept(classNames, links, targets, |links|)|
  {
    var kept := Kept(classNames, links, targets, |links|);
    Plan(links, kept, AttachIntended(targets, kept), history, watchLater, options)
  }

  /** `processLinks` as written. */
  function ProcessAsWritten(classNames: seq<string>, links: seq<Anchor>, history: map<string, int>,
                            watchLater: map<string, int>, targets: Option<seq<nat>>,
                            options: ClassOptions): (r: seq<string>)
    requires WellFormed(|classNames|, links, targets)
  {
    var plan := PlanAsWritten(classNames, links, history, watchLater, targets, options);
    ApplyWrites(classNames, plan, |plan|)
  }

  /** `processLinks` with each survivor paired with its own attach target. */
  function ProcessIntended(classNames: seq<string>, links: seq<Anchor>, history: map<string, int>,
                           watchLater: map<string, int>, targets: Option<seq<nat>>,
                           options: ClassOptions): (r: seq<string>)
    requires WellFormed(|classNames|, links, targets)
  {
    var plan := PlanIntended(classNames, links, history, watchLater, targets, options);
    ApplyWrites(classNames, plan, |plan|)
  }

  /** The `j`-th attach entry as written: the `j`-th attach target, `j` counting survivors. */
  lemma AttachAsWrittenAt(targets: Option<seq<nat>>, kept: seq<nat>, j: nat)
    requires (targets.Some? ==> |kept| <= |targets.value|) && j < |kept|
    ensures AttachAsWritten(targets, kept)[j] == if targets.None? then None else Some(targets.value[j])
  {
  }

  /** The `j`-th attach entry as intended: the attach target of the `j`-th survivor. */
  lemma AttachIntendedAt(targets: Option<seq<nat>>, kept: seq<nat>, j: nat)
    requires (targets.Some? ==> forall j :: 0 <= j < |kept| ==> kept[j] < |targets.value|) && j < |kept|
    ensures AttachIntended(targets, kept)[j] == if targets.None? then None else Some(targets.value[kept[j]])
  {
  }

  /** The `j`-th write of a plan: the `j`-th survivor's link, paired with the `j`-th attach entry. */
  lemma {:induction false} PlanAt(links: seq<Anchor>, kept: seq<nat>, attach: seq<Option<nat>>,
                                  history: map<string, int>, watchLater: map<string, int>, options: ClassOptions, j: nat)
    requires |kept| == |attach| && (forall j :: 0 <= j < |kept| ==> kept[j] < |links|) && j < |kept|
    ensures Plan(links, kept, attach, history, watchLater, options)[j]
         == WriteFor(links[kept[j]], attach[j], history, watchLater, options)
  {
    var last := |kept| - 1;
    if j < last {
      PlanAt(links, kept[..last], attach[..last], history, watchLater, options, j);
    }
  }

  /**
   * `Array.from(links).filter((titleLink, i) => …className.indexOf("bhm-video-") === -1)`:
   * the indices of the links whose inspected element is unmarked.
   */
  method FilterLinks(dom: array<string>, links: seq<Anchor>, targets: Option<seq<nat>>) returns (kept: seq<nat>)
    requires WellFormed(dom.Length, links, targets)
    ensures kept == Kept(dom[..], links, targets, |links|)
  {
    kept := [];
    var i := 0;
    while i < |links|
      invariant i <= |links|
      invariant kept == Kept(dom[..], links, targets, i)
    {
      var inspected := if targets.None? then links[i].node else targets.value[i];
      if IndexOf(dom[inspected], MarkerPrefix) == -1 {
        kept := kept + [i];
      }
      i := i + 1;
    }
  }

  /**
   * The arrow function of the `forEach`: `addClassForLink(titleLink, …,
   * classAttachTargetElements === null ? null : classAttachTargetElements[i], …)`
   * for the survivor at position `j` of the filtered list.
   */
  method SurvivorCallback(dom: array<string>, links: seq<Anchor>, kept: seq<nat>, j: nat, history: map<string, int>,
                          watchLater: map<string, int>, targets: Option<seq<nat>>, options: ClassOptions)
    requires j < |kept| && (forall j :: 0 <= j < |kept| ==> kept[j] < |links|)
    requires targets.Some? ==> |kept| <= |targets.value|
    requires WellFormed(dom.Length, links, targets)
    modifies dom
    ensures dom[..] == ApplyWrite(old(dom[..]), Plan(links, kept, AttachAsWritten(targets, kept), history, watchLater, options)[j])
  {
    var target := if targets.None? then None else Some(targets.value[j]);
    AttachAsWrittenAt(targets, kept, j);
    PlanAt(links, kept, AttachAsWritten(targets, kept), history, watchLater, options, j);
    AddClassForLink(dom, links[kept[j]], history, watchLater, target, options);
  }

  /**
   * `.forEach((titleLink, i) => …)` over the survivors of the filter, `i`
   * counting the survivors.
   */
  method ForEachSurvivor(dom: array<string>, links: seq<Anchor>, kept: seq<nat>, history: map<string, int>,
                         watchLater: map<string, int>, targets: Option<seq<nat>>, options: ClassOptions)
    requires forall j :: 0 <= j < |kept| ==> kept[j] < |links|
    requires targets.Some? ==> |kept| <= |targets.value|
    requires WellFormed(dom.Length, links, targets)
    modifies dom
    ensures var plan := Plan(links, kept, AttachAsWritten(targets, kept), history, watchLater, options);
            dom[..] == ApplyWrites(old(dom[..]), plan, |plan|)
  {
    ghost var plan := Plan(links, kept, AttachAsWritten(targets, kept), history, watchLater, options);
    ghost var original := dom[..];
    var j := 0;
    while j < |kept|
      invariant j <= |kept|
      invariant dom[..] == ApplyWrites(original, plan, j)
    {
      ghost var before := dom[..];
      SurvivorCallback(dom, links, kept, j, history, watchLater, targets, options);
      ApplyWritesStep(original, plan, j, before, dom[..]);
      j := j + 1;
    }
  }

  /** The arrow function with the survivor paired with its own attach target. */
  method SurvivorCallbackIntended(dom: array<string>, links: seq<Anchor>, kept: seq<nat>, j: nat,
                                  history: map<string, int>, watchLater: map<string, int>,
                                  targets: Option<seq<nat>>, options: ClassOptions)
    requires j < |kept| && (forall j :: 0 <= j < |kept| ==> kept[j] < |links|)
    requires targets.Some? ==> |targets.value| == |links|
    requires WellFormed(dom.Length, links, targets)
    modifies dom
    ensures dom[..] == ApplyWrite(old(dom[..]), Plan(links, kept, AttachIntended(targets, kept), history, watchLater, options)[j])
  {
    var target := if targets.None? then None else Some(targets.value[kept[j]]);
    AttachIntendedAt(targets, kept, j);
    PlanAt(links, kept, AttachIntended(targets, kept), history, watchLater, options, j);
    AddClassForLink(dom, links[kept[j]], history, watchLater, target, options);
  }

  /** The `forEach` with each survivor paired with its own attach target. */
  method ForEachSurvivorIntended(dom: array<string>, links: seq<Anchor>, kept: seq<nat>, history: map<string, int>,
                                 watchLater: map<string, int>, targets: Option<seq<nat>>, options: ClassOptions)
    requires forall j :: 0 <= j < |kept| ==> kept[j] < |links|
    requires targets.Some? ==> |targets.value| == |links|
    requires WellFormed(dom.Length, links, targets)
    modifies dom
    ensures var plan := Plan(links, kept, AttachIntended(targets, kept), history, watchLater, options);
            dom[..] == ApplyWrites(old(dom[..]), plan, |plan|)
  {
    ghost var plan := Plan(links, kept, AttachIntended(targets, kept), history, watchLater, options);
    ghost var original := dom[..];
    var j := 0;
    while j < |kept|
      invariant j <= |kept|
      invariant dom[..] == ApplyWrites(original, plan, j)
    {
      ghost var before := dom[..];
      SurvivorCallbackIntended(dom, links, kept, j, history, watchLater, targets, options);
      ApplyWritesStep(original, plan, j, before, dom[..]);
      j := j + 1;
    }
  }

  /**
   * `processLinks(links, currentHistoryMap, currentWatchLaterMap, classAttachTargetElements, classOptions)`:
   * filter the links whose inspected element is unmarked, then call
   * `addClassForLink` on each survivor, pairing the `j`-th survivor with the
   * `j`-th attach target.
   */
  method ProcessLinks(dom: array<string>, links: seq<Anchor>, history: map<string, int>,
                      watchLater: map<string, int>, targets: Option<seq<nat>>, options: ClassOptions)
    requires WellFormed(dom.Length, links, targets)
    modifies dom
    ensures dom[..] == ProcessAsWritten(old(dom[..]), links, history, watchLater, targets, options)
  {
    var kept := FilterLinks(dom, links, targets);
    ForEachSurvivor(dom, links, kept, history, watchLater, targets, options);
  }

  /** `processLinks` with each survivor paired with its own attach target. */
  method ProcessLinksIntended(dom: array<string>, links: seq<Anchor>, history: map<string, int>,
                              watchLater: map<string, int>, targets: Option<seq<nat>>, options: ClassOptions)
    requires WellFormed(dom.Length, links, targets)
    modifies dom
    ensures dom[..] == ProcessIntended(old(dom[..]), links, history, watchLater, targets, options)
  {
    var kept := FilterLinks(dom, links, targets);
    ForEachSurvivorIntended(dom, links, kept, history, watchLater, targets, options);
  }
}
