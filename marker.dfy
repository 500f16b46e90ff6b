/**
 * `getNewClassForLink`: the marker classes of one video, from the cached
 * history and watch-later maps (video id to playback progress).
 */
module Marker {
  import opened Wrappers
  import opened Text

  /** The progress value the site uses for a video watched to the end. */
  const FinishedProgress: int := -1

  /** Every marker class starts with this; the annotator uses it to recognise marked elements. */
  const MarkerPrefix: string := "bhm-video-"

  /** The `classOptions` argument: `{history: "skip"}` and/or `{watchLater: "skip"}`. */
  datatype ClassOptions = ClassOptions(skipHistory: bool, skipWatchLater: bool)

  const NoOptions := ClassOptions(false, false)

  /** The watch-later listing page passes `{watchLater: "skip"}`. */
  const WatchLaterPageOptions := ClassOptions(false, true)

  /** What a map says about a video. */
  datatype Watch = Finished | Partially | Unseen

  /** The finished sentinel means finished, any other recorded progress partially, absence not seen. */
  function StatusOf(m: map<string, int>, id: string): Watch {
    if id !in m then Unseen
    else if m[id] == FinishedProgress then Finished
    else Partially
  }

  /** The history marker class for a status. */
  function HistoryClass(st: Watch): string {
    match st
    case Finished => "bhm-video-watched-finished"
    case Partially => "bhm-video-watched-partially"
    case Unseen => "bhm-video-watched-none"
  }

  /** The watch-later marker class for a status. */
  function WatchLaterClass(st: Watch): string {
    match st
    case Finished => "bhm-video-watch-later-finished"
    case Partially => "bhm-video-watch-later-partially"
    case Unseen => "bhm-video-watch-later-none"
  }

  /**
   * `getNewClassForLink(bvNumber, currentHistoryMap, currentWatchLaterMap, classOptions)`:
   * the history class followed by a space unless history is skipped, then
   * the watch-later class unless watch later is skipped.
   */
  function NewClassForLink(id: string, history: map<string, int>, watchLater: map<string, int>,
                           options: ClassOptions): (r: string)
    ensures r == "" <==> options.skipHistory && options.skipWatchLater
  {
    var historyPart :=
      if options.skipHistory then ""
      else if id in history then
        (if history[id] == -1 then "bhm-video-watched-finished" else "bhm-video-watched-partially") + " "
      else "bhm-video-watched-none" + " ";
    var watchLaterPart :=
      if options.skipWatchLater then ""
      else if id in watchLater then
        (if watchLater[id] == -1 then "bhm-video-watch-later-finished" else "bhm-video-watch-later-partially")
      else "bhm-video-watch-later-none";
    historyPart + watchLaterPart
  }

  /**
   * The class string is the history class and a space unless history is
   * skipped, followed by the watch-later class unless watch later is skipped.
   */
  lemma NewClassShape(id: string, history: map<string, int>, watchLater: map<string, int>,
                      options: ClassOptions)
    ensures NewClassForLink(id, history, watchLater, options)
         == (if options.skipHistory then "" else HistoryClass(StatusOf(history, id)) + " ")
          + (if options.skipWatchLater then "" else WatchLaterClass(StatusOf(watchLater, id)))
  {
  }

  /** Each history class is a single class name carrying the marker prefix. */
  lemma HistoryClassIsToken(st: Watch)
    ensures IsToken(HistoryClass(st)) && MatchesAt(HistoryClass(st), MarkerPrefix, 0)
  {
    match st
    case Finished => TokenByPosition(HistoryClass(Finished));
    case Partially => TokenByPosition(HistoryClass(Partially));
    case Unseen => TokenByPosition(HistoryClass(Unseen));
  }

  /** Each watch-later class is a single class name carrying the marker prefix. */
  lemma WatchLaterClassIsToken(st: Watch)
    ensures IsToken(WatchLaterClass(st)) && MatchesAt(WatchLaterClass(st), MarkerPrefix, 0)
  {
    match st
    case Finished => TokenByPosition(WatchLaterClass(Finished));
    case Partially => TokenByPosition(WatchLaterClass(Partially));
    case Unseen => TokenByPosition(WatchLaterClass(Unseen));
  }

  /**
   * Read as a class list, the class string is exactly the marker classes that
   * were not skipped, history first.
   */
  lemma NewClassTokens(id: string, history: map<string, int>, watchLater: map<string, int>,
                       options: ClassOptions)
    ensures ClassTokens(NewClassForLink(id, history, watchLater, options))
         == (if options.skipHistory then [] else [HistoryClass(StatusOf(history, id))])
          + (if options.skipWatchLater then [] else [WatchLaterClass(StatusOf(watchLater, id))])
  {
    var h := HistoryClass(StatusOf(history, id));
    var w := WatchLaterClass(StatusOf(watchLater, id));
    NewClassShape(id, history, watchLater, options);
    HistoryClassIsToken(StatusOf(history, id));
    WatchLaterClassIsToken(StatusOf(watchLater, id));
    TokensOfToken(h);
    TokensOfToken(w);
    if !options.skipHistory && !options.skipWatchLater {
      TokensOfJoin(h, w);
    } else if !options.skipHistory {
      TokensOfJoin(h, "");
      assert h + " " + "" == h + " ";
      assert ClassTokens("") == [];
    } else if !options.skipWatchLater {
      assert NewClassForLink(id, history, watchLater, options) == w;
    } else {
      assert NewClassForLink(id, history, watchLater, options) == "";
    }
  }

  /** Every class string with at least one part not skipped carries the marker prefix. */
  lemma NewClassIsMarked(id: string, history: map<string, int>, watchLater: map<string, int>,
                         options: ClassOptions)
    requires !(options.skipHistory && options.skipWatchLater)
    ensures Contains(NewClassForLink(id, history, watchLater, options), MarkerPrefix)
  {
    var r := NewClassForLink(id, history, watchLater, options);
    NewClassShape(id, history, watchLater, options);
    HistoryClassIsToken(StatusOf(history, id));
    WatchLaterClassIsToken(StatusOf(watchLater, id));
    if !options.skipHistory {
      var h := HistoryClass(StatusOf(history, id));
      assert r[..|MarkerPrefix|] == h[..|MarkerPrefix|];
    } else {
      assert r == WatchLaterClass(StatusOf(watchLater, id));
    }
    assert MatchesAt(r, MarkerPrefix, 0);
  }

  /**
   * On the watch-later listing every video is in the list, so only the
   * history class is added, still followed by its space.
   */
  lemma WatchLaterPageClass(id: string, history: map<string, int>, watchLater: map<string, int>)
    ensures NewClassForLink(id, history, watchLater, WatchLaterPageOptions) == HistoryClass(StatusOf(history, id)) + " "
    ensures ClassTokens(NewClassForLink(id, history, watchLater, WatchLaterPageOptions)) == [HistoryClass(StatusOf(history, id))]
  {
    NewClassShape(id, history, watchLater, WatchLaterPageOptions);
    NewClassTokens(id, history, watchLater, WatchLaterPageOptions);
  }

  /** The history status a class list shows: that of its first history marker class. */
  function HistoryStatusIn(classes: seq<string>): Option<Watch> {
    if classes == [] then None
    else if classes[0] == HistoryClass(Finished) then Some(Finished)
    else if classes[0] == HistoryClass(Partially) then Some(Partially)
    else if classes[0] == HistoryClass(Unseen) then Some(Unseen)
    else HistoryStatusIn(classes[1..])
  }

  /** The watch-later status a class list shows: that of its first watch-later marker class. */
  function WatchLaterStatusIn(classes: seq<string>): Option<Watch> {
    if classes == [] then None
    else if classes[0] == WatchLaterClass(Finished) then Some(Finished)
    else if classes[0] == WatchLaterClass(Partially) then Some(Partially)
    else if classes[0] == WatchLaterClass(Unseen) then Some(Unseen)
    else WatchLaterStatusIn(classes[1..])
  }

  /** A class list that starts with a history class shows that status. */
  lemma HistoryDecodesFirst(st: Watch, rest: seq<string>)
    ensures HistoryStatusIn([HistoryClass(st)] + rest) == Some(st)
  {
    match st
    case Finished =>
    case Partially =>
    case Unseen =>
  }

  /** The history decoder passes over a watch-later class. */
  lemma HistorySkipsWatchLater(st: Watch, rest: seq<string>)
    ensures HistoryStatusIn([WatchLaterClass(st)] + rest) == HistoryStatusIn(rest)
  {
    assert ([WatchLaterClass(st)] + rest)[1..] == rest;
    match st
    case Finished =>
    case Partially =>
    case Unseen =>
  }

  /** A class list that starts with a watch-later class shows that status. */
  lemma WatchLaterDecodesFirst(st: Watch, rest: seq<string>)
    ensures WatchLaterStatusIn([WatchLaterClass(st)] + rest) == Some(st)
  {
    match st
    case Finished =>
    case Partially =>
    case Unseen =>
  }

  /** The watch-later decoder passes over a history class. */
  lemma WatchLaterSkipsHistory(st: Watch, rest: seq<string>)
    ensures WatchLaterStatusIn([HistoryClass(st)] + rest) == WatchLaterStatusIn(rest)
  {
    assert ([HistoryClass(st)] + rest)[1..] == rest;
    match st
    case Finished =>
    case Partially =>
    case Unseen =>
  }

  /**
   * Decoding the class list gives back each status that was not skipped, and
   * nothing for a skipped part: the sentinel shows as finished, any other
   * recorded progress as partially, an absent id as none.
   */
  lemma NewClassDecodes(id: string, history: map<string, int>, watchLater: map<string, int>,
                        options: ClassOptions)
    ensures var classes := ClassTokens(NewClassForLink(id, history, watchLater, options));
            && HistoryStatusIn(classes) == (if options.skipHistory then None else Some(StatusOf(history, id)))
            && WatchLaterStatusIn(classes) == (if options.skipWatchLater then None else Some(StatusOf(watchLater, id)))
  {
    NewClassTokens(id, history, watchLater, options);
    var hs := StatusOf(history, id);
    var ws := StatusOf(watchLater, id);
    var wPart: seq<string> := if options.skipWatchLater then [] else [WatchLaterClass(ws)];
    if !options.skipWatchLater {
      WatchLaterDecodesFirst(ws, []);
      HistorySkipsWatchLater(ws, []);
      assert wPart == [WatchLaterClass(ws)] + [];
    }
    if !options.skipHistory {
      HistoryDecodesFirst(hs, wPart);
      WatchLaterSkipsHistory(hs, wPart);
    } else {
      assert [] + wPart == wPart;
    }
  }

  /** A page with one finished video: its `-1` progress reads as finished, any other id as none. */
  lemma SentinelExample()
    ensures var classes := ClassTokens(NewClassForLink("BV1xx", map["BV1xx" := -1], map[], NoOptions));
            HistoryStatusIn(classes) == Some(Finished) && WatchLaterStatusIn(classes) == Some(Unseen)
    ensures var classes := ClassTokens(NewClassForLink("BV2yy", map["BV1xx" := -1], map[], NoOptions));
            HistoryStatusIn(classes) == Some(Unseen) && WatchLaterStatusIn(classes) == Some(Unseen)
  {
    NewClassDecodes("BV1xx", map["BV1xx" := -1], map[], NoOptions);
    NewClassDecodes("BV2yy", map["BV1xx" := -1], map[], NoOptions);
  }
}
