/** Feedback intake: deduplicated, and limited per sender over a sliding window. */
module Intake {
  import opened Common

  /** A queued item; `createdAt` is absent when its timestamp cannot be read or compared. */
  datatype FeedbackItem = FeedbackItem(sender: string, text: string, createdAt: Option<real>, status: string)

  datatype IntakeError = Duplicate | RateLimited

  datatype Limits = Limits(maxPerWindow: int, windowSeconds: real)

  predicate IsPending(e: FeedbackItem) {
    e.status == "pending"
  }

  predicate WithinWindow(limits: Limits, createdAt: Option<real>, moment: real) {
    createdAt.Some? && moment - createdAt.value < limits.windowSeconds
  }

  predicate IsDuplicate(items: seq<FeedbackItem>, item: FeedbackItem) {
    exists i :: 0 <= i < |items| && IsPending(items[i]) && items[i].sender == item.sender && items[i].text == item.text
  }

  /** Pending items of the sender that are within the window at `moment`. */
  function RecentCount(limits: Limits, items: seq<FeedbackItem>, sender: string, moment: real): nat {
    if items == [] then 0
    else
      var last := items[|items| - 1];
      RecentCount(limits, items[..|items| - 1], sender, moment)
      + if IsPending(last) && last.sender == sender && WithinWindow(limits, last.createdAt, moment) then 1 else 0
  }

  function Refusal(limits: Limits, items: seq<FeedbackItem>, item: FeedbackItem, moment: real): Option<IntakeError> {
    if IsDuplicate(items, item) then Some(Duplicate)
    else if RecentCount(limits, items, item.sender, moment) >= limits.maxPerWindow then Some(RateLimited)
    else None
  }

  /** A pending item has the same sender and the same text. */
  ghost predicate RepeatsPending(items: seq<FeedbackItem>, item: FeedbackItem) {
    exists e :: e in items && e.status == "pending" && e.sender == item.sender && e.text == item.text
  }

  /** The places of the sender's own pending items whose readable stamp is less than the window old at `moment`. */
  ghost function RecentOf(items: seq<FeedbackItem>, sender: string, moment: real, window: real): set<int> {
    set i | 0 <= i < |items| && items[i].status == "pending" && items[i].sender == sender
            && items[i].createdAt.Some? && moment - items[i].createdAt.value < window
  }

  lemma {:induction false} RecentCountCounts(limits: Limits, items: seq<FeedbackItem>, sender: string, moment: real)
    ensures RecentCount(limits, items, sender, moment) == |RecentOf(items, sender, moment, limits.windowSeconds)|
  {
    if items != [] {
      var n := |items| - 1;
      RecentCountCounts(limits, items[..n], sender, moment);
      RecentOneMore(items, sender, moment, limits.windowSeconds);
    } else {
      assert RecentOf(items, sender, moment, limits.windowSeconds) == {};
    }
  }

  lemma RecentOneMore(items: seq<FeedbackItem>, sender: string, moment: real, window: real)
    requires items != []
    ensures var n := |items| - 1; var last := items[n]; var front := RecentOf(items[..n], sender, moment, window);
            var recent := last.status == "pending" && last.sender == sender
                          && last.createdAt.Some? && moment - last.createdAt.value < window;
            n !in front && RecentOf(items, sender, moment, window) == if recent then front + {n} else front
  {
  }

  class FeedbackQueue {
    const limits: Limits
    var items: seq<FeedbackItem>

    constructor (limits: Limits)
      ensures this.limits == limits && items == []
    {
      this.limits := limits;
      items := [];
    }

    /** `submit`. */
    method Submit(item: FeedbackItem, moment: real) returns (r: Result<FeedbackItem, IntakeError>)
      modifies this
      ensures items == Submitted(limits, old(items), item, moment)
      ensures r == Err(Duplicate) <==> RepeatsPending(old(items), item)
      ensures r == Err(RateLimited) <==>
                !RepeatsPending(old(items), item)
                && |RecentOf(old(items), item.sender, moment, limits.windowSeconds)| >= limits.maxPerWindow
      ensures items == if r.Ok? then old(items) + [item] else old(items)
      ensures r.Ok? ==> r.value == item
      ensures r == match Refusal(limits, old(items), item, moment) case Some(error) => Err(error) case None => Ok(item)
    {
      if IsDuplicate(items, item) {
        return Err(Duplicate);
      }
      var recent := 0;
      for i := 0 to |items|
        invariant recent == RecentCount(limits, items[..i], item.sender, moment)
        invariant items == old(items)
      {
        assert items[..i + 1][..i] == items[..i];
        if IsPending(items[i]) && items[i].sender == item.sender && WithinWindow(limits, items[i].createdAt, moment) {
          recent := recent + 1;
        }
      }
      assert items[..|items|] == items;
      RecentCountCounts(limits, items, item.sender, moment);
      if recent >= limits.maxPerWindow {
        return Err(RateLimited);
      }
      items := items + [item];
      return Ok(item);
    }
  }

  function Submitted(limits: Limits, items: seq<FeedbackItem>, item: FeedbackItem, moment: real): seq<FeedbackItem> {
    if Refusal(limits, items, item, moment).None? then items + [item] else items
  }

  type Submissions = seq<(FeedbackItem, real)>

  /** The queue after a history of submissions. */
  function QueueAfter(limits: Limits, history: Submissions): seq<FeedbackItem> {
    if history == [] then []
    else
      var (item, moment) := history[|history| - 1];
      Submitted(limits, QueueAfter(limits, history[..|history| - 1]), item, moment)
  }

  /** Every readable stamp is at most `lag` older than the reading of the clock at its submission; clocks may jump. */
  ghost predicate Lagged(history: Submissions, lag: real) {
    forall i :: 0 <= i < |history| && history[i].0.createdAt.Some? ==>
      history[i].1 <= history[i].0.createdAt.value + lag
  }

  /** An interval of the given length starting at `start`, open at one end. */
  predicate InInterval(length: real, start: real, openBelow: bool, t: Option<real>) {
    t.Some? && if openBelow then start < t.value <= start + length else start <= t.value < start + length
  }

  function CountIn(items: seq<FeedbackItem>, sender: string, length: real, start: real, openBelow: bool): nat {
    if items == [] then 0
    else
      var last := items[|items| - 1];
      var counts := IsPending(last) && last.sender == sender && InInterval(length, start, openBelow, last.createdAt);
      CountIn(items[..|items| - 1], sender, length, start, openBelow) + if counts then 1 else 0
  }

  /**
   * What lies in an interval shorter than the window by the lag, and reaching up to `stamp`, is recent at submission.
   */
  lemma {:induction false} IntervalIsRecent(
    limits: Limits, items: seq<FeedbackItem>, sender: string,
    lag: real, start: real, openBelow: bool, stamp: real, moment: real)
    requires InInterval(limits.windowSeconds - lag, start, openBelow, Some(stamp)) && moment <= stamp + lag
    ensures CountIn(items, sender, limits.windowSeconds - lag, start, openBelow)
              <= RecentCount(limits, items, sender, moment)
  {
    if items != [] {
      IntervalIsRecent(limits, items[..|items| - 1], sender, lag, start, openBelow, stamp, moment);
    }
  }

  /**
   * The sliding window: when stamps lag by at most `lag`, no interval as long as the window less the lag, open at
   * either end, ever holds more of a sender's items than allowed. Unreadable stamps may be mixed in.
   */
  lemma {:induction false} LaggedWindowBound(
    limits: Limits, history: Submissions, sender: string, lag: real, start: real, openBelow: bool)
    requires Lagged(history, lag)
    ensures CountIn(QueueAfter(limits, history), sender, limits.windowSeconds - lag, start, openBelow)
              <= Allowed(limits)
  {
    if history != [] {
      var front, length := history[..|history| - 1], limits.windowSeconds - lag;
      var (item, moment) := history[|history| - 1];
      var before := QueueAfter(limits, front);
      LaggedWindowBound(limits, front, sender, lag, start, openBelow);
      if Refusal(limits, before, item, moment).None? {
        assert (before + [item])[..|before|] == before;
        if item.sender == sender && InInterval(length, start, openBelow, item.createdAt) {
          IntervalIsRecent(limits, before, sender, lag, start, openBelow, item.createdAt.value, moment);
        }
      }
    }
  }

  function Allowed(limits: Limits): (n: nat)
    ensures n == 0 <==> limits.maxPerWindow <= 0
  {
    if limits.maxPerWindow >= 0 then limits.maxPerWindow else 0
  }

  /** With every item stamped at its submission the bound holds for the window's whole length. */
  lemma WindowBound(limits: Limits, history: Submissions, sender: string, start: real, openBelow: bool)
    requires forall i :: 0 <= i < |history| ==> history[i].0.createdAt == Some(history[i].1)
    ensures CountIn(QueueAfter(limits, history), sender, limits.windowSeconds, start, openBelow) <= Allowed(limits)
  {
    LaggedWindowBound(limits, history, sender, 0.0, start, openBelow);
  }

  // ----- how far the bound reaches -----

  /** No history with stamps that lag by at most `lag` ever fills an interval of this length beyond the limit. */
  ghost predicate BoundHolds(limits: Limits, lag: real, length: real) {
    forall history, sender, start, openBelow :: Lagged(history, lag) ==>
      CountIn(QueueAfter(limits, history), sender, length, start, openBelow) <= Allowed(limits)
  }

  function NthText(n: nat): string {
    seq(n, _ => 'x')
  }

  /** As many different texts of one sender as the limit allows, all stamped and submitted at time zero. */
  function Burst(sender: string, n: nat): Submissions {
    seq(n, i requires 0 <= i < n => (FeedbackItem(sender, NthText(i), Some(0.0), "pending"), 0.0))
  }

  function ItemsOf(history: Submissions): seq<FeedbackItem> {
    seq(|history|, i requires 0 <= i < |history| => history[i].0)
  }

  lemma {:induction false} RecentIsAtMostAll(limits: Limits, items: seq<FeedbackItem>, sender: string, moment: real)
    ensures RecentCount(limits, items, sender, moment) <= |items|
  {
    if items != [] {
      RecentIsAtMostAll(limits, items[..|items| - 1], sender, moment);
    }
  }

  lemma {:induction false} BurstIsAccepted(limits: Limits, sender: string, n: nat)
    requires n <= limits.maxPerWindow
    ensures QueueAfter(limits, Burst(sender, n)) == ItemsOf(Burst(sender, n))
  {
    if n > 0 {
      var history, before := Burst(sender, n), ItemsOf(Burst(sender, n - 1));
      BurstIsAccepted(limits, sender, n - 1);
      assert history[..n - 1] == Burst(sender, n - 1);
      var (item, moment) := history[n - 1];
      forall i | 0 <= i < |before| ensures before[i].text != item.text {
        assert |before[i].text| == i && |item.text| == n - 1;
      }
      RecentIsAtMostAll(limits, before, item.sender, moment);
      assert ItemsOf(history) == before + [item];
    }
  }

  /** At the end of a window that started with a burst, nothing is recent any more. */
  lemma {:induction false} BurstIsForgotten(limits: Limits, sender: string, n: nat, moment: real)
    requires moment >= limits.windowSeconds
    ensures RecentCount(limits, ItemsOf(Burst(sender, n)), sender, moment) == 0
  {
    if n > 0 {
      BurstIsForgotten(limits, sender, n - 1, moment);
      assert ItemsOf(Burst(sender, n))[..n - 1] == ItemsOf(Burst(sender, n - 1));
    }
  }

  lemma {:induction false} BurstCounts(sender: string, n: nat, length: real)
    requires length > 0.0
    ensures CountIn(ItemsOf(Burst(sender, n)), sender, length, 0.0, false) == n
  {
    if n > 0 {
      BurstCounts(sender, n - 1, length);
      assert ItemsOf(Burst(sender, n))[..n - 1] == ItemsOf(Burst(sender, n - 1));
    }
  }

  /** One more item, stamped within the interval but submitted when the burst has left the window, is one too many. */
  lemma LateSubmissionOverfills(limits: Limits, sender: string, lag: real, length: real)
    requires limits.maxPerWindow > 0 && lag >= 0.0 && length > 0.0 && length > limits.windowSeconds - lag
    ensures !BoundHolds(limits, lag, length)
  {
    var history := Overfill(limits, sender, lag, length);
    assert CountIn(QueueAfter(limits, history), sender, length, 0.0, false) > Allowed(limits);
  }

  lemma Overfill(limits: Limits, sender: string, lag: real, length: real) returns (history: Submissions)
    requires limits.maxPerWindow > 0 && lag >= 0.0 && length > 0.0 && length > limits.windowSeconds - lag
    ensures Lagged(history, lag)
    ensures CountIn(QueueAfter(limits, history), sender, length, 0.0, false) == limits.maxPerWindow + 1
  {
    var n, window := limits.maxPerWindow, limits.windowSeconds;
    var stamp := if window - lag > 0.0 then window - lag else 0.0;
    var moment := if window > 0.0 then window else 0.0;
    var burst, late := Burst(sender, n), FeedbackItem(sender, NthText(n), Some(stamp), "pending");
    history := burst + [(late, moment)];
    BurstThenLate(limits, sender, late, moment);
    BurstCounts(sender, n, length);
    CountOneMore(ItemsOf(burst), late, sender, length);
    assert Lagged(history, lag);
  }

  lemma BurstThenLate(limits: Limits, sender: string, late: FeedbackItem, moment: real)
    requires limits.maxPerWindow > 0 && moment >= limits.windowSeconds
    requires |late.text| == limits.maxPerWindow && late.sender == sender
    ensures var burst := Burst(sender, limits.maxPerWindow);
            QueueAfter(limits, burst + [(late, moment)]) == ItemsOf(burst) + [late]
  {
    var n := limits.maxPerWindow;
    var burst := Burst(sender, n);
    BurstIsAccepted(limits, sender, n);
    BurstIsForgotten(limits, sender, n, moment);
    LongerTextIsNew(sender, n, late);
    assert (burst + [(late, moment)])[..n] == burst;
  }

  lemma LongerTextIsNew(sender: string, n: nat, item: FeedbackItem)
    requires |item.text| == n
    ensures !IsDuplicate(ItemsOf(Burst(sender, n)), item)
  {
    forall i | 0 <= i < n ensures ItemsOf(Burst(sender, n))[i].text != item.text {
      assert |ItemsOf(Burst(sender, n))[i].text| == i;
    }
  }

  lemma CountOneMore(items: seq<FeedbackItem>, item: FeedbackItem, sender: string, length: real)
    requires IsPending(item) && item.sender == sender && InInterval(length, 0.0, false, item.createdAt)
    ensures CountIn(items + [item], sender, length, 0.0, false) == CountIn(items, sender, length, 0.0, false) + 1
  {
    assert (items + [item])[..|items|] == items;
  }

  /** Exactly which intervals the limiter protects: those no longer than the window less the lag. */
  lemma BoundHoldsIff(limits: Limits, lag: real, length: real)
    requires lag >= 0.0
    ensures BoundHolds(limits, lag, length) <==>
              limits.maxPerWindow <= 0 || length <= 0.0 || length <= limits.windowSeconds - lag
  {
    if limits.maxPerWindow > 0 && length > 0.0 && length > limits.windowSeconds - lag {
      LateSubmissionOverfills(limits, "", lag, length);
    } else {
      forall history, sender, start, openBelow | Lagged(history, lag)
        ensures CountIn(QueueAfter(limits, history), sender, length, start, openBelow) <= Allowed(limits)
      {
        var items := QueueAfter(limits, history);
        if limits.maxPerWindow <= 0 {
          NothingAllowed(limits, history);
        } else if length <= 0.0 {
          ShorterHoldsLess(items, sender, length, 0.0, start, openBelow);
          EmptyInterval(items, sender, start, openBelow);
        } else {
          LaggedWindowBound(limits, history, sender, lag, start, openBelow);
          ShorterHoldsLess(items, sender, length, limits.windowSeconds - lag, start, openBelow);
        }
      }
    }
  }

  lemma {:induction false} NothingAllowed(limits: Limits, history: Submissions)
    requires limits.maxPerWindow <= 0
    ensures QueueAfter(limits, history) == []
  {
    if history != [] {
      NothingAllowed(limits, history[..|history| - 1]);
    }
  }

  lemma {:induction false} ShorterHoldsLess(
    items: seq<FeedbackItem>, sender: string, shorter: real, longer: real, start: real, openBelow: bool)
    requires shorter <= longer
    ensures CountIn(items, sender, shorter, start, openBelow) <= CountIn(items, sender, longer, start, openBelow)
  {
    if items != [] {
      ShorterHoldsLess(items[..|items| - 1], sender, shorter, longer, start, openBelow);
    }
  }

  lemma {:induction false} EmptyInterval(items: seq<FeedbackItem>, sender: string, start: real, openBelow: bool)
    ensures CountIn(items, sender, 0.0, start, openBelow) == 0
  {
    if items != [] {
      EmptyInterval(items[..|items| - 1], sender, start, openBelow);
    }
  }

  /**
   * The smallest failing input: a limit of one in ten seconds, and an item submitted one second after it was stamped.
   */
  lemma LagBreaksTheFullWindow()
    ensures var one := (FeedbackItem("s", "a", Some(0.0), "pending"), 0.0);
            var two := (FeedbackItem("s", "b", Some(9.0), "pending"), 10.0);
            CountIn(QueueAfter(Limits(1, 10.0), [one, two]), "s", 10.0, 0.0, false) == 2
  {
    var limits := Limits(1, 10.0);
    var one := (FeedbackItem("s", "a", Some(0.0), "pending"), 0.0);
    var two := (FeedbackItem("s", "b", Some(9.0), "pending"), 10.0);
    var first: Submissions := [one];
    assert [one, two][..1] == first && first[..0] == [];
    var queued: seq<FeedbackItem> := [one.0];
    assert QueueAfter(limits, first) == queued && queued[..0] == [];
    assert RecentCount(limits, queued, "s", 10.0) == 0;
    assert QueueAfter(limits, [one, two]) == [one.0, two.0];
    assert [one.0, two.0][..1] == [one.0];
    assert CountIn(queued, "s", 10.0, 0.0, false) == 1;
  }

  /** No two pending items share sender and text, whatever was submitted when. */
  lemma {:induction false} NoTwoPendingAlike(limits: Limits, history: Submissions, i: int, j: int)
    requires var items := QueueAfter(limits, history);
             0 <= i < j < |items| && IsPending(items[i]) && IsPending(items[j])
    ensures var items := QueueAfter(limits, history);
            items[i].sender != items[j].sender || items[i].text != items[j].text
  {
    var front := history[..|history| - 1];
    var (item, moment) := history[|history| - 1];
    if j < |QueueAfter(limits, front)| {
      NoTwoPendingAlike(limits, front, i, j);
    }
  }

  /**
   * The limit counts readable stamps only: a sender whose stamps are all unreadable is never refused for the rate,
   * however many items it submits and whatever others do; only an exact repeat of a pending item is refused.
   */
  lemma UnreadableStampsAreNotLimited(limits: Limits, history: Submissions, sender: string, k: nat)
    requires limits.maxPerWindow > 0 && k < |history| && history[k].0.sender == sender
    requires forall i :: 0 <= i < |history| && history[i].0.sender == sender ==> history[i].0.createdAt.None?
    ensures var (item, moment) := history[k]; var items := QueueAfter(limits, history[..k]);
            Refusal(limits, items, item, moment) == if IsDuplicate(items, item) then Some(Duplicate) else None
  {
    var (item, moment) := history[k];
    assert forall i :: 0 <= i < k ==> history[..k][i] == history[i];
    QueueComesFromHistory(limits, history[..k], sender);
    NothingRecent(limits, QueueAfter(limits, history[..k]), sender, moment);
  }

  predicate Unreadable(items: seq<FeedbackItem>, sender: string) {
    forall item :: item in items && item.sender == sender ==> item.createdAt.None?
  }

  lemma {:induction false} QueueComesFromHistory(limits: Limits, history: Submissions, sender: string)
    requires forall i :: 0 <= i < |history| && history[i].0.sender == sender ==> history[i].0.createdAt.None?
    ensures Unreadable(QueueAfter(limits, history), sender)
  {
    if history != [] {
      var front, last := history[..|history| - 1], history[|history| - 1];
      assert forall i :: 0 <= i < |front| ==> front[i] == history[i];
      QueueComesFromHistory(limits, front, sender);
      assert last.0.sender == sender ==> last.0.createdAt.None?;
    }
  }

  lemma {:induction false} NothingRecent(limits: Limits, items: seq<FeedbackItem>, sender: string, moment: real)
    requires Unreadable(items, sender)
    ensures RecentCount(limits, items, sender, moment) == 0
  {
    if items != [] {
      NothingRecent(limits, items[..|items| - 1], sender, moment);
    }
  }
}
