/**
 * The moderation rules of the bot's general message handler (bot.py): price extraction from
 * the matches of the two price patterns, the violation checks inside and outside the monitored
 * resale thread, and the set of media groups already evaluated, which makes an album draw at
 * most one warning as long as no cleanup clears that set between the album's messages.
 */
module Moderation {
  import opened Wrappers
  import opened Text

  // ---------------------------------------------------------------------------------------
  // Prices

  /**
   * One match of a price pattern in the lowered message text: the number it captured, as
   * read by `float`, and the unit written after it, if any.
   */
  datatype PriceMatch = PriceMatch(value: real, unit: Option<string>)

  /**
   * What the two price patterns find in a message: the first match of the pattern that
   * requires a `ціна:`/`price:`/`цена:` label, and every match of the unlabelled pattern.
   */
  datatype PriceScan = PriceScan(labelled: Option<PriceMatch>, fallback: seq<PriceMatch>)

  /** The units that mean thousands. */
  const ThousandUnits: seq<string> := ["k", "к", "тис"]

  /** The minimum price of an offer, in hryvnias. */
  const MinimumPrice: real := 3000.0

  /** The longest message allowed outside the monitored thread. */
  const MaxLength := 500

  /** The price a match stands for: thousands for the units `k`, `к` and `тис`. */
  function Scaled(m: PriceMatch): (p: real)
    ensures m.unit.Some? && Lower(m.unit.value) in ThousandUnits ==> p == m.value * 1000.0
    ensures m.unit.None? || Lower(m.unit.value) !in ThousandUnits ==> p == m.value
  {
    if m.unit.Some? && Lower(m.unit.value) in ThousandUnits then m.value * 1000.0 else m.value
  }

  /** Python's `max(a, b)`, which keeps `a` on a tie. */
  function RealMax(a: real, b: real): real {
    if b > a then b else a
  }

  /** The running maximum of the scaled fallback matches, starting from zero. */
  function MaxScaled(ms: seq<PriceMatch>): real {
    if ms == [] then 0.0 else RealMax(MaxScaled(ms[..|ms| - 1]), Scaled(ms[|ms| - 1]))
  }

  /** The price of an offer: the labelled match if there is one, else the largest positive match. */
  function PriceOf(scan: PriceScan): Option<real> {
    if scan.labelled.Some? then Some(Scaled(scan.labelled.value))
    else if MaxScaled(scan.fallback) > 0.0 then Some(MaxScaled(scan.fallback))
    else None
  }

  /** The running maximum is at least zero and every match, and is zero or one of the matches. */
  lemma {:induction false} MaxScaledIsMaximum(ms: seq<PriceMatch>)
    ensures MaxScaled(ms) >= 0.0
    ensures forall i :: 0 <= i < |ms| ==> Scaled(ms[i]) <= MaxScaled(ms)
    ensures MaxScaled(ms) == 0.0 || exists i :: 0 <= i < |ms| && MaxScaled(ms) == Scaled(ms[i])
  {
    if ms != [] {
      var init := ms[..|ms| - 1];
      MaxScaledIsMaximum(init);
      assert forall i :: 0 <= i < |init| ==> ms[i] == init[i];
      if MaxScaled(ms) != 0.0 && MaxScaled(ms) == MaxScaled(init) {
        var i :| 0 <= i < |init| && MaxScaled(init) == Scaled(init[i]);
        assert MaxScaled(ms) == Scaled(ms[i]);
      }
    }
  }

  /**
   * A labelled price wins whatever its value, zero included. Without one, the price is the
   * largest scaled unlabelled match, and there is none when no match is above zero.
   */
  lemma PriceSelection(scan: PriceScan)
    ensures scan.labelled.Some? ==> PriceOf(scan) == Some(Scaled(scan.labelled.value))
    ensures scan.labelled.None? ==>
              (PriceOf(scan).None? <==> forall i :: 0 <= i < |scan.fallback| ==> Scaled(scan.fallback[i]) <= 0.0)
    ensures scan.labelled.None? && PriceOf(scan).Some? ==>
              && PriceOf(scan).value > 0.0
              && (forall i :: 0 <= i < |scan.fallback| ==> Scaled(scan.fallback[i]) <= PriceOf(scan).value)
              && exists i :: 0 <= i < |scan.fallback| && Scaled(scan.fallback[i]) == PriceOf(scan).value
  {
    MaxScaledIsMaximum(scan.fallback);
  }

  /** `extract_price`: the labelled match, else the loop keeping the largest fallback match. */
  method ExtractPrice(scan: PriceScan) returns (price: Option<real>)
    ensures price == PriceOf(scan)
  {
    if scan.labelled.Some? {
      return Some(Scaled(scan.labelled.value));
    }
    var maxPrice := 0.0;
    var i := 0;
    while i < |scan.fallback|
      invariant 0 <= i <= |scan.fallback|
      invariant maxPrice == MaxScaled(scan.fallback[..i])
    {
      assert scan.fallback[..i + 1][..i] == scan.fallback[..i];
      maxPrice := RealMax(maxPrice, Scaled(scan.fallback[i]));
      i := i + 1;
    }
    assert scan.fallback[..i] == scan.fallback;
    if maxPrice > 0.0 {
      return Some(maxPrice);
    }
    return None;
  }

  // ---------------------------------------------------------------------------------------
  // Messages and violations

  /**
   * The parts of a chat message the handler looks at. The message's price matches are
   * given as `prices`, since the patterns are not modelled.
   */
  datatype Message = Message(
    text: Option<string>,
    caption: Option<string>,
    sticker: bool,
    animation: bool,
    video: bool,
    photo: bool,
    threadId: Option<int>,
    mediaGroupId: Option<string>,
    prices: PriceScan)

  /** Why a message is deleted; each reason has its own warning text. */
  datatype Reason = PriceTooLow | MissingHashtag | NotAllowedContent | TooLong

  /** What the handler does with a message: whether it tries to delete it and which warning it sends. */
  datatype Outcome = Outcome(deleteAttempted: bool, warning: Option<Reason>)

  const Ignored := Outcome(false, None)

  /** The text checked: the message text, else the caption, else empty (empty strings count as missing). */
  function MessageText(m: Message): (t: string)
    ensures m.text.Some? && m.text.value != "" ==> t == m.text.value
    ensures (m.text.None? || m.text.value == "") && m.caption.Some? ==> t == m.caption.value
    ensures t == "" <==> (m.text.None? || m.text.value == "") && (m.caption.None? || m.caption.value == "")
  {
    if m.text.Some? && m.text.value != "" then m.text.value
    else if m.caption.Some? && m.caption.value != "" then m.caption.value
    else ""
  }

  /** The album a message belongs to, when it has a non-empty media group id. */
  function GroupKey(m: Message): Option<string> {
    if m.mediaGroupId.Some? && m.mediaGroupId.value != "" then m.mediaGroupId else None
  }

  /** Whether an offer's price is missing or below the minimum. */
  predicate PriceTooLowFor(scan: PriceScan) {
    PriceOf(scan).None? || PriceOf(scan).value < MinimumPrice
  }

  /**
   * The first failed check for a message in the monitored thread, in priority order: a
   * `#продам` offer without a price of at least 3000; otherwise text with neither `#куплю`
   * nor `#продам`; otherwise a sticker, or an animation, video or photo without text.
   */
  function InThreadViolation(m: Message): (r: Option<Reason>)
    ensures var t := Lower(MessageText(m));
            Contains(t, "#продам") ==> (r.Some? <==> PriceTooLowFor(m.prices)) && (r.Some? ==> r == Some(PriceTooLow))
    ensures var t := Lower(MessageText(m));
            r == Some(MissingHashtag) <==> MessageText(m) != "" && !Contains(t, "#куплю") && !Contains(t, "#продам")
    ensures var t := Lower(MessageText(m));
            Contains(t, "#куплю") && !Contains(t, "#продам") && !m.sticker ==> r.None?
    ensures var t := Lower(MessageText(m));
            r == Some(PriceTooLow) ==> Contains(t, "#продам")
    ensures var t := Lower(MessageText(m));
            r == Some(NotAllowedContent) <==>
              && !Contains(t, "#продам") && (MessageText(m) == "" || Contains(t, "#куплю"))
              && (m.sticker || ((m.animation || m.video || m.photo) && MessageText(m) == ""))
    ensures r != Some(TooLong)
  {
    var text := MessageText(m);
    var t := Lower(text);
    LowerOfEmpty(text);
    if text != "" && Contains(t, "#продам") then
      if PriceTooLowFor(m.prices) then Some(PriceTooLow) else None
    else if text != "" && !(Contains(t, "#куплю") || Contains(t, "#продам")) then
      Some(MissingHashtag)
    else if m.sticker || (m.animation && text == "") || (m.video && text == "") || (m.photo && text == "") then
      Some(NotAllowedContent)
    else None
  }

  /** Only the empty string lowers to the empty string, and nothing empty contains a hashtag. */
  lemma LowerOfEmpty(s: string)
    ensures Lower(s) == "" <==> s == ""
    ensures s == "" ==> !Contains(Lower(s), "#продам") && !Contains(Lower(s), "#куплю")
  {
  }

  /**
   * The checks outside the monitored thread: stickers, animations, videos, textless photos and
   * empty messages are left alone; text over 500 characters is deleted; and a message that
   * starts with `#продам` needs a price of at least 3000.
   */
  function OutOfThreadViolation(m: Message): (r: Option<Reason>)
    ensures r.Some? ==> !m.sticker && !m.animation && !m.video && MessageText(m) != ""
    ensures r == Some(TooLong) <==>
              !m.sticker && !m.animation && !m.video && MessageText(m) != "" && |MessageText(m)| > MaxLength
    ensures r == Some(PriceTooLow) <==>
              && !m.sticker && !m.animation && !m.video && MessageText(m) != "" && |MessageText(m)| <= MaxLength
              && StartsWith(Lower(MessageText(m)), "#продам") && PriceTooLowFor(m.prices)
    ensures r.None? || r == Some(TooLong) || r == Some(PriceTooLow)
  {
    var text := MessageText(m);
    if m.sticker || m.animation || m.video || (m.photo && text == "") then None
    else if text == "" then None
    else if |text| > MaxLength then Some(TooLong)
    else if !StartsWith(Lower(text), "#продам") then None
    else if PriceTooLowFor(m.prices) then Some(PriceTooLow)
    else None
  }

  /** Whether `m` was posted in the monitored thread; no thread, or thread id 0, monitors nothing. */
  predicate InMonitoredThread(monitored: Option<int>, m: Message) {
    monitored.Some? && monitored.value != 0 && m.threadId == monitored
  }

  /** Deleting for a reason, and warning only when the deletion succeeded. */
  function Act(v: Option<Reason>, deleteOk: bool): (o: Outcome)
    ensures o.deleteAttempted <==> v.Some?
    ensures o.warning.Some? <==> v.Some? && deleteOk
    ensures o.warning.Some? ==> o.warning == v
  {
    if v.None? then Ignored else Outcome(true, if deleteOk then v else None)
  }

  /**
   * One step of the general handler on `m`, given the monitored thread and the albums
   * already evaluated: what it does and the albums evaluated afterwards. `isAdmin` says
   * whether the sender is a chat administrator and `deleteOk` whether a deletion would
   * succeed.
   */
  function Decide(monitored: Option<int>, groups: set<string>, m: Message, isAdmin: bool, deleteOk: bool)
    : (r: (Outcome, set<string>))
    ensures StartsWith(MessageText(m), "/") || isAdmin ==> r == (Ignored, groups)
    ensures r.0.warning.Some? ==> r.0.deleteAttempted && deleteOk
    ensures !InMonitoredThread(monitored, m) || GroupKey(m).None? ==> r.1 == groups
    ensures InMonitoredThread(monitored, m) && GroupKey(m).Some? ==> r.1 <= groups + {GroupKey(m).value}
    ensures !StartsWith(MessageText(m), "/") && !isAdmin && InMonitoredThread(monitored, m) ==>
              if GroupKey(m).Some? && GroupKey(m).value in groups then r == (Outcome(true, None), groups)
              else r == (Act(InThreadViolation(m), deleteOk),
                         if GroupKey(m).Some? then groups + {GroupKey(m).value} else groups)
    ensures !StartsWith(MessageText(m), "/") && !isAdmin && !InMonitoredThread(monitored, m) ==>
              r.0 == Act(OutOfThreadViolation(m), deleteOk)
  {
    if StartsWith(MessageText(m), "/") || isAdmin then (Ignored, groups)
    else if InMonitoredThread(monitored, m) then
      var key := GroupKey(m);
      if key.Some? && key.value in groups then (Outcome(true, None), groups)
      else
        var after := if key.Some? then groups + {key.value} else groups;
        (Act(InThreadViolation(m), deleteOk), after)
    else (Act(OutOfThreadViolation(m), deleteOk), groups)
  }

  /** The handler's steps on `ms` in order, from sender messages that are not administrators'. */
  function Run(monitored: Option<int>, groups: set<string>, ms: seq<Message>, deleteOk: bool)
    : (r: (seq<Outcome>, set<string>))
    ensures |r.0| == |ms|
  {
    if ms == [] then ([], groups)
    else
      var before := Run(monitored, groups, ms[..|ms| - 1], deleteOk);
      var step := Decide(monitored, before.1, ms[|ms| - 1], false, deleteOk);
      (before.0 + [step.0], step.1)
  }

  /** The messages of one album posted in the monitored thread. */
  predicate SameAlbum(monitored: Option<int>, ms: seq<Message>, key: string) {
    forall i :: 0 <= i < |ms| ==>
      InMonitoredThread(monitored, ms[i]) && GroupKey(ms[i]) == Some(key) && !StartsWith(MessageText(ms[i]), "/")
  }

  /**
   * An album not yet evaluated is judged once, on its first message: that message is handled
   * like any other, and every later one is only deleted, with no warning.
   */
  lemma {:induction false} AlbumJudgedOnce(monitored: Option<int>, groups: set<string>, ms: seq<Message>,
                                           key: string, deleteOk: bool)
    requires |ms| >= 1 && SameAlbum(monitored, ms, key) && key !in groups
    ensures Run(monitored, groups, ms, deleteOk).1 == groups + {key}
    ensures Run(monitored, groups, ms, deleteOk).0[0] == Act(InThreadViolation(ms[0]), deleteOk)
    ensures forall i :: 1 <= i < |ms| ==> Run(monitored, groups, ms, deleteOk).0[i] == Outcome(true, None)
  {
    if |ms| > 1 {
      var init := ms[..|ms| - 1];
      assert SameAlbum(monitored, init, key) by {
        forall i | 0 <= i < |init| ensures InMonitoredThread(monitored, init[i]) {
          assert init[i] == ms[i];
        }
      }
      AlbumJudgedOnce(monitored, groups, init, key, deleteOk);
      assert init[0] == ms[0];
    }
  }

  /**
   * Hence an album whose messages arrive with no cleanup between them draws at most one
   * warning, and none when its first message passes.
   */
  lemma AlbumWarnsAtMostOnce(monitored: Option<int>, groups: set<string>, ms: seq<Message>,
                             key: string, deleteOk: bool)
    requires |ms| >= 1 && SameAlbum(monitored, ms, key) && key !in groups
    ensures forall i :: 1 <= i < |ms| ==> Run(monitored, groups, ms, deleteOk).0[i].warning.None?
    ensures InThreadViolation(ms[0]).None? ==>
              forall i :: 0 <= i < |ms| ==> Run(monitored, groups, ms, deleteOk).0[i].warning.None?
  {
    AlbumJudgedOnce(monitored, groups, ms, key, deleteOk);
  }

  /**
   * The periodic cleanup forgets every evaluated album, so an album whose messages straddle a
   * cleanup is judged twice: a first photo captioned without a hashtag draws the hashtag
   * warning, and after the cleanup a captionless photo of the same album draws the content
   * warning.
   */
  lemma AlbumSplitByCleanup()
    ensures var thread := Some(7);
            var m1 := Message(None, Some("hello"), false, false, false, true, thread, Some("g1"), PriceScan(None, []));
            var m2 := Message(None, None, false, false, false, true, thread, Some("g1"), PriceScan(None, []));
            && Decide(thread, {}, m1, false, true) == (Outcome(true, Some(MissingHashtag)), {"g1"})
            && Decide(thread, {}, m2, false, true) == (Outcome(true, Some(NotAllowedContent)), {"g1"})
  {
    var m1 := Message(None, Some("hello"), false, false, false, true, Some(7), Some("g1"), PriceScan(None, []));
    assert Lower("hello") == "hello";
    assert !Contains("hello", "#куплю") && !Contains("hello", "#продам");
    var m2 := Message(None, None, false, false, false, true, Some(7), Some("g1"), PriceScan(None, []));
    assert InThreadViolation(m1) == Some(MissingHashtag);
    assert MessageText(m2) == "" && InThreadViolation(m2) == Some(NotAllowedContent);
    assert !StartsWith(MessageText(m1), "/") && !StartsWith(MessageText(m2), "/");
    assert GroupKey(m1) == Some("g1") && GroupKey(m2) == Some("g1");
    assert {} + {"g1"} == {"g1"};
    assert Decide(Some(7), {}, m1, false, true) == (Outcome(true, Some(MissingHashtag)), {"g1"});
  }

  // ---------------------------------------------------------------------------------------
  // The handler

  /** The handler's state: the monitored resale thread and the albums already evaluated. */
  class Moderator {
    var monitoredThread: Option<int>
    var processedGroups: set<string>

    constructor (monitored: Option<int>)
      ensures monitoredThread == monitored && processedGroups == {}
    {
      monitoredThread := monitored;
      processedGroups := {};
    }

    /** `handle_messages` on one message. */
    method HandleMessage(m: Message, isAdmin: bool, deleteOk: bool) returns (o: Outcome)
      modifies this`processedGroups
      ensures (o, processedGroups) == Decide(monitoredThread, old(processedGroups), m, isAdmin, deleteOk)
    {
      var text := MessageText(m);
      if StartsWith(text, "/") {
        return Ignored;
      }
      if isAdmin {
        return Ignored;
      }
      if InMonitoredThread(monitoredThread, m) {
        var key := GroupKey(m);
        if key.Some? && key.value in processedGroups {
          return Outcome(true, None);
        }
        if key.Some? {
          processedGroups := processedGroups + {key.value};
        }
        var reason: Option<Reason> := None;
        var lowered := Lower(text);
        if text != "" && Contains(lowered, "#продам") {
          var price := ExtractPrice(m.prices);
          if price.None? || price.value < MinimumPrice {
            reason := Some(PriceTooLow);
          }
        } else if text != "" && !(Contains(lowered, "#куплю") || Contains(lowered, "#продам")) {
          reason := Some(MissingHashtag);
        } else if m.sticker || (m.animation && text == "") || (m.video && text == "") || (m.photo && text == "") {
          reason := Some(NotAllowedContent);
        }
        return Act(reason, deleteOk);
      }
      if m.sticker || m.animation || m.video || (m.photo && text == "") {
        return Ignored;
      }
      if text == "" {
        return Ignored;
      }
      if |text| > MaxLength {
        return Act(Some(TooLong), deleteOk);
      }
      if !StartsWith(Lower(text), "#продам") {
        return Ignored;
      }
      var price := ExtractPrice(m.prices);
      if price.None? || price.value < MinimumPrice {
        return Act(Some(PriceTooLow), deleteOk);
      }
      return Ignored;
    }

    /** One round of `cleanup_task`: forgets every evaluated album. */
    method Cleanup()
      modifies this`processedGroups
      ensures processedGroups == {}
    {
      processedGroups := {};
    }
  }
}
