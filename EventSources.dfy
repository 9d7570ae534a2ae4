/**
 * Event producers of the proactive-chat pipeline
 * (src/open_llm_vtuber/event_sources.py): the `Event` shape, the wait
 * until the next interval boundary of the time source, the events of the
 * time and message sources, and the feed poller with its `seen` set.
 *
 * Clocks, sleeping and the feed download are not modelled: the wall-clock
 * minute and second, the timestamps and the parsed feed of each poll are
 * inputs.
 */
module EventSources {
  import opened Common

  /** `Event`: a type tag (`"tick"`, `"rss"` or `"message"`) and a payload. */
  datatype Event = Event(kind: string, payload: Payload)

  const TickKind: string := "tick"
  const RssKind: string := "rss"
  const MessageKind: string := "message"

  // ---------------------------------------------------------------------
  // Time source
  // ---------------------------------------------------------------------

  /** Python's `a % b`, whose result takes the sign of `b`. */
  function PyMod(a: int, b: int): (r: int)
    requires b != 0
    ensures b > 0 ==> 0 <= r < b
    ensures b < 0 ==> b < r <= 0
  {
    if b > 0 then a % b else -((-a) % (-b))
  }

  /**
   * `minute_interval * 60 - (now.second + now.minute % minute_interval * 60)`,
   * the seconds left until the next wall-clock boundary of the interval. An
   * interval of 0 raises `ZeroDivisionError` from the `%`.
   */
  function Wait(minuteInterval: int, minute: int, second: int): (r: Result<int>)
    ensures r.Raised? <==> minuteInterval == 0
  {
    if minuteInterval == 0 then Raised("ZeroDivisionError")
    else Ok(minuteInterval * 60 - (second + PyMod(minute, minuteInterval) * 60))
  }

  /** `wait or 1`: the number of seconds actually slept. */
  function SleepSeconds(wait: int): int {
    if wait == 0 then 1 else wait
  }

  /**
   * For a positive interval and a clock second in 0..59, the wait is
   * between one second and a whole interval, so the `or 1` fallback never
   * fires and the next tick lands on the boundary.
   */
  lemma WaitBounds(minuteInterval: int, minute: int, second: int)
    requires minuteInterval >= 1 && 0 <= second <= 59
    ensures Wait(minuteInterval, minute, second).Ok?
    ensures 1 <= Wait(minuteInterval, minute, second).value <= minuteInterval * 60
    ensures SleepSeconds(Wait(minuteInterval, minute, second).value) == Wait(minuteInterval, minute, second).value
  {
    var m := PyMod(minute, minuteInterval);
    assert m <= minuteInterval - 1;
    assert m * 60 <= minuteInterval * 60 - 60;
  }

  /** Waiting never sleeps less than a second when the wait is not negative. */
  lemma SleepAtLeastOne(wait: int)
    requires wait >= 0
    ensures SleepSeconds(wait) >= 1
  {
  }

  /** The event `time_source` yields at a boundary: a tick stamped with the current UTC time. */
  function TickEvent(utc: string): (e: Event)
    ensures e.kind == TickKind && e.payload.Keys == {"utc"} && e.payload["utc"] == utc
  {
    Event(TickKind, map["utc" := utc])
  }

  /** `time_source` over the boundaries it reaches: one tick per boundary, in order. */
  function TimeSource(stamps: seq<string>): (r: seq<Event>)
    ensures |r| == |stamps|
    ensures forall k :: 0 <= k < |r| ==> r[k] == TickEvent(stamps[k])
  {
    seq(|stamps|, k requires 0 <= k < |stamps| => TickEvent(stamps[k]))
  }

  /** `message_source` over the items it dequeues: each item becomes the payload of a message event. */
  function MessageSource(items: seq<Payload>): (r: seq<Event>)
    ensures |r| == |items|
    ensures forall k :: 0 <= k < |r| ==> r[k].kind == MessageKind && r[k].payload == items[k]
  {
    seq(|items|, k requires 0 <= k < |items| => Event(MessageKind, items[k]))
  }

  // ---------------------------------------------------------------------
  // Feed source
  // ---------------------------------------------------------------------

  /**
   * A parsed feed entry. `id`, `title` and `link` are attribute reads that
   * raise `AttributeError` when the entry lacks them (`None` here);
   * `summary` and `published` are read with a default of `''`.
   */
  datatype Entry = Entry(id: Option<string>, title: Option<string>, link: Option<string>,
                         summary: Option<string>, published: Option<string>)

  /** What one call of `feedparser.parse(url)` gave: the entries, or an exception. */
  datatype Feed = Parsed(entries: seq<Entry>) | ParseFailed

  /**
   * The payload of the event yielded for an entry: exactly these four keys.
   * Only entries with a title and a link are ever yielded; for the others
   * the two keys would hold `''`.
   */
  function RssPayload(e: Entry): (p: Payload)
    ensures p.Keys == {"title", "link", "summary", "published"}
    ensures e.title.Some? ==> p["title"] == e.title.value
    ensures e.link.Some? ==> p["link"] == e.link.value
    ensures p["summary"] == e.summary.GetOr("") && p["published"] == e.published.GetOr("")
  {
    map["title" := e.title.GetOr(""), "link" := e.link.GetOr(""),
        "summary" := e.summary.GetOr(""), "published" := e.published.GetOr("")]
  }

  predicate Yieldable(e: Entry) {
    e.id.Some? && e.title.Some? && e.link.Some?
  }

  /**
   * One poll over the entries: the resulting `seen` set, the entries
   * yielded (in feed order) and whether an exception ended the poll early.
   */
  datatype PollOutcome = PollOutcome(seen: set<string>, yielded: seq<Entry>, aborted: bool)

  /**
   * The body of the `for entry in feed.entries` loop as a function. An
   * entry without `id` raises before anything happens to it; an entry
   * whose id is new is added to `seen` first, so one that then lacks
   * `title` or `link` stays in `seen` without being yielded.
   */
  function PollEntries(seen: set<string>, entries: seq<Entry>): (o: PollOutcome)
    ensures forall k :: 0 <= k < |o.yielded| ==> Yieldable(o.yielded[k])
    decreases |entries|
  {
    if entries == [] then PollOutcome(seen, [], false)
    else
      var e := entries[0];
      if e.id.None? then PollOutcome(seen, [], true)
      else if e.id.value in seen then PollEntries(seen, entries[1..])
      else if e.title.None? || e.link.None? then PollOutcome(seen + {e.id.value}, [], true)
      else
        var rest := PollEntries(seen + {e.id.value}, entries[1..]);
        PollOutcome(rest.seen, [e] + rest.yielded, rest.aborted)
  }

  /** The outcome `o` with `ys` yielded before it. */
  function Prepend(ys: seq<Entry>, o: PollOutcome): PollOutcome {
    PollOutcome(o.seen, ys + o.yielded, o.aborted)
  }

  /** A poll: a feed that failed to parse yields nothing and leaves `seen` alone. */
  function PollFeed(seen: set<string>, feed: Feed): PollOutcome {
    match feed
    case ParseFailed => PollOutcome(seen, [], true)
    case Parsed(entries) => PollEntries(seen, entries)
  }

  function RssEvent(e: Entry): Event {
    Event(RssKind, RssPayload(e))
  }

  function RssEvents(es: seq<Entry>): (r: seq<Event>)
    ensures |r| == |es|
    ensures forall k :: 0 <= k < |r| ==> r[k] == RssEvent(es[k])
  {
    seq(|es|, k requires 0 <= k < |es| => RssEvent(es[k]))
  }

  lemma RssEventsConcat(a: seq<Entry>, b: seq<Entry>)
    ensures RssEvents(a + b) == RssEvents(a) + RssEvents(b)
  {
    assert forall k :: 0 <= k < |a + b| ==> (a + b)[k] == if k < |a| then a[k] else b[k - |a|];
  }

  function Ids(es: seq<Entry>): (r: seq<string>)
    requires forall k :: 0 <= k < |es| ==> es[k].id.Some?
    ensures |r| == |es| && forall k :: 0 <= k < |r| ==> r[k] == es[k].id.value
  {
    seq(|es|, k requires 0 <= k < |es| => es[k].id.value)
  }

  predicate Distinct(ids: seq<string>) {
    forall i, j :: 0 <= i < j < |ids| ==> ids[i] != ids[j]
  }

  /** `a` is `b` with some elements left out: the order of `b` is kept. */
  predicate IsSubsequence<T(==)>(a: seq<T>, b: seq<T>)
    decreases |b|
  {
    a == [] || (b != [] && ((a[0] == b[0] && IsSubsequence(a[1..], b[1..])) || IsSubsequence(a, b[1..])))
  }

  /** Within one poll `seen` only grows, and every yielded id is new before and in `seen` after. */
  lemma {:induction false} PollFresh(seen: set<string>, entries: seq<Entry>)
    ensures var o := PollEntries(seen, entries);
      && seen <= o.seen
      && (forall k :: 0 <= k < |o.yielded| ==> o.yielded[k].id.value !in seen && o.yielded[k].id.value in o.seen)
    decreases |entries|
  {
    if entries != [] {
      var e := entries[0];
      if e.id.Some? && e.id.value in seen {
        PollFresh(seen, entries[1..]);
      } else if e.id.Some? && e.title.Some? && e.link.Some? {
        PollFresh(seen + {e.id.value}, entries[1..]);
      }
    }
  }

  /** Within one poll the yielded entries come from the feed, in feed order. */
  lemma {:induction false} PollOrder(seen: set<string>, entries: seq<Entry>)
    ensures IsSubsequence(PollEntries(seen, entries).yielded, entries)
    decreases |entries|
  {
    if entries != [] {
      var e := entries[0];
      if e.id.Some? && e.id.value in seen {
        PollOrder(seen, entries[1..]);
        SubsequenceSkip(PollEntries(seen, entries[1..]).yielded, entries);
      } else if e.id.Some? && e.title.Some? && e.link.Some? {
        var s1 := seen + {e.id.value};
        PollOrder(s1, entries[1..]);
        var y := [e] + PollEntries(s1, entries[1..]).yielded;
        assert y[1..] == PollEntries(s1, entries[1..]).yielded;
      }
    }
  }

  /** Within one poll no id is yielded twice. */
  lemma {:induction false} PollDistinct(seen: set<string>, entries: seq<Entry>)
    ensures Distinct(Ids(PollEntries(seen, entries).yielded))
    decreases |entries|
  {
    if entries != [] {
      var e := entries[0];
      if e.id.Some? && e.id.value in seen {
        PollDistinct(seen, entries[1..]);
      } else if e.id.Some? && e.title.Some? && e.link.Some? {
        var s1 := seen + {e.id.value};
        PollDistinct(s1, entries[1..]);
        PollFresh(s1, entries[1..]);
        var rest := PollEntries(s1, entries[1..]);
        var y := [e] + rest.yielded;
        forall i, j | 0 <= i < j < |y| ensures Ids(y)[i] != Ids(y)[j] {
          assert Ids(y)[j] == rest.yielded[j - 1].id.value;
          if i > 0 {
            assert Ids(rest.yielded)[i - 1] != Ids(rest.yielded)[j - 1];
          }
        }
      }
    }
  }

  /** The ids of entries that all have one. */
  function IdSet(es: seq<Entry>): set<string>
    requires forall k :: 0 <= k < |es| ==> es[k].id.Some?
  {
    set k | 0 <= k < |es| :: es[k].id.value
  }

  lemma IdSetConcat(a: seq<Entry>, b: seq<Entry>)
    requires forall k :: 0 <= k < |a| ==> a[k].id.Some?
    requires forall k :: 0 <= k < |b| ==> b[k].id.Some?
    ensures forall k :: 0 <= k < |a + b| ==> (a + b)[k].id.Some?
    ensures IdSet(a + b) == IdSet(a) + IdSet(b)
  {
    assert forall k :: 0 <= k < |a + b| ==> (a + b)[k] == if k < |a| then a[k] else b[k - |a|];
    forall x | x in IdSet(a) + IdSet(b) ensures x in IdSet(a + b) {
      if x in IdSet(a) {
        var k :| 0 <= k < |a| && a[k].id.value == x;
        assert (a + b)[k] == a[k];
      } else {
        var k :| 0 <= k < |b| && b[k].id.value == x;
        assert (a + b)[|a| + k] == b[k];
      }
    }
  }

  /**
   * The completeness half of a poll. A poll that runs to the end has read
   * an id from every entry, and each of those ids was either seen before
   * or is yielded now; `seen` gains exactly the yielded ids. A poll aborts
   * only at an entry that lacks an id, a title or a link, so a feed whose
   * entries all have them is never cut short.
   */
  lemma {:induction false} PollComplete(seen: set<string>, entries: seq<Entry>)
    ensures var o := PollEntries(seen, entries);
      && (!o.aborted ==> o.seen == seen + IdSet(o.yielded))
      && (!o.aborted ==> forall k :: 0 <= k < |entries| ==>
            entries[k].id.Some? && (entries[k].id.value in seen || entries[k].id.value in IdSet(o.yielded)))
      && ((forall k :: 0 <= k < |entries| ==> Yieldable(entries[k])) ==> !o.aborted)
      && (o.aborted ==> exists k :: 0 <= k < |entries| && !Yieldable(entries[k]))
    decreases |entries|
  {
    if entries != [] {
      var e := entries[0];
      var tail := entries[1..];
      assert forall k :: 1 <= k < |entries| ==> entries[k] == tail[k - 1];
      if e.id.Some? && e.id.value in seen {
        PollComplete(seen, tail);
        var o := PollEntries(seen, tail);
        if o.aborted {
          var k :| 0 <= k < |tail| && !Yieldable(tail[k]);
          assert !Yieldable(entries[k + 1]);
        }
      } else if e.id.Some? && e.title.Some? && e.link.Some? {
        var s1 := seen + {e.id.value};
        PollComplete(s1, tail);
        var rest := PollEntries(s1, tail);
        IdSetConcat([e], rest.yielded);
        assert IdSet([e]) == {e.id.value} by {
          assert [e][0] == e;
        }
        if rest.aborted {
          var k :| 0 <= k < |tail| && !Yieldable(tail[k]);
          assert !Yieldable(entries[k + 1]);
        }
      } else {
        assert !Yieldable(entries[0]);
      }
    }
  }

  /** The ids read from the entries before position `k`, among those that have one. */
  function IdsBefore(entries: seq<Entry>, k: nat): set<string>
    requires k <= |entries|
  {
    set j | 0 <= j < k && entries[j].id.Some? :: entries[j].id.value
  }

  /**
   * An entry that ends the poll when `s` is the `seen` set it meets: it
   * has no id, or its id is new and it lacks a title or a link. An entry
   * whose id was seen is skipped before its title or link is read.
   */
  predicate Breaks(s: set<string>, e: Entry) {
    e.id.None? || (e.id.value !in s && !Yieldable(e))
  }

  lemma IdsBeforeShift(entries: seq<Entry>, k: nat)
    requires entries != [] && entries[0].id.Some? && k + 1 <= |entries|
    ensures IdsBefore(entries, k + 1) == {entries[0].id.value} + IdsBefore(entries[1..], k)
  {
    var tail := entries[1..];
    forall x | x in IdsBefore(entries, k + 1) ensures x in {entries[0].id.value} + IdsBefore(tail, k) {
      var j :| 0 <= j < k + 1 && entries[j].id.Some? && entries[j].id.value == x;
      if j > 0 {
        assert tail[j - 1] == entries[j];
      }
    }
    forall x | x in IdsBefore(tail, k) ensures x in IdsBefore(entries, k + 1) {
      var j :| 0 <= j < k && tail[j].id.Some? && tail[j].id.value == x;
      assert entries[j + 1] == tail[j];
    }
    assert entries[0].id.value in IdsBefore(entries, k + 1);
  }

  /**
   * A poll is cut short exactly when some entry breaks it against the
   * `seen` set of that moment: the initial `seen` with the ids of the
   * entries before it.
   */
  lemma {:induction false} PollAbortsExactly(seen: set<string>, entries: seq<Entry>)
    ensures PollEntries(seen, entries).aborted <==>
      exists k :: 0 <= k < |entries| && Breaks(seen + IdsBefore(entries, k), entries[k])
    decreases |entries|
  {
    if entries != [] {
      var e, tail := entries[0], entries[1..];
      assert IdsBefore(entries, 0) == {};
      if Breaks(seen, e) {
        assert Breaks(seen + IdsBefore(entries, 0), entries[0]);
      } else {
        var s1 := seen + {e.id.value};
        assert PollEntries(seen, entries).aborted == PollEntries(s1, tail).aborted by {
          if e.id.value in seen {
            assert s1 == seen;
          }
        }
        PollAbortsExactly(s1, tail);
        forall k | 0 <= k < |tail|
          ensures seen + IdsBefore(entries, k + 1) == s1 + IdsBefore(tail, k) && entries[k + 1] == tail[k]
        {
          IdsBeforeShift(entries, k);
        }
        if exists k :: 0 <= k < |entries| && Breaks(seen + IdsBefore(entries, k), entries[k]) {
          var k :| 0 <= k < |entries| && Breaks(seen + IdsBefore(entries, k), entries[k]);
          assert k != 0;
          assert Breaks(s1 + IdsBefore(tail, k - 1), tail[k - 1]);
        }
        if exists k :: 0 <= k < |tail| && Breaks(s1 + IdsBefore(tail, k), tail[k]) {
          var k :| 0 <= k < |tail| && Breaks(s1 + IdsBefore(tail, k), tail[k]);
          assert Breaks(seen + IdsBefore(entries, k + 1), entries[k + 1]);
        }
      }
    }
  }

  /**
   * Within one poll: the yielded entries come from the feed in feed order,
   * none of their ids was seen before, no id is yielded twice, each is in
   * `seen` afterwards, and `seen` only grows; conversely, a poll that is
   * not cut short yields every entry whose id is new, and one over
   * complete entries is never cut short.
   */
  lemma PollProperties(seen: set<string>, entries: seq<Entry>)
    ensures var o := PollEntries(seen, entries);
      && seen <= o.seen
      && IsSubsequence(o.yielded, entries)
      && Distinct(Ids(o.yielded))
      && (forall k :: 0 <= k < |o.yielded| ==> o.yielded[k].id.value !in seen && o.yielded[k].id.value in o.seen)
      && (!o.aborted ==> o.seen == seen + IdSet(o.yielded))
      && (!o.aborted ==> forall k :: 0 <= k < |entries| ==>
            entries[k].id.Some? && (entries[k].id.value in seen || entries[k].id.value in IdSet(o.yielded)))
      && ((forall k :: 0 <= k < |entries| ==> Yieldable(entries[k])) ==> !o.aborted)
  {
    PollFresh(seen, entries);
    PollOrder(seen, entries);
    PollDistinct(seen, entries);
    PollComplete(seen, entries);
  }

  lemma SubsequenceSkip<T>(a: seq<T>, b: seq<T>)
    requires b != [] && IsSubsequence(a, b[1..])
    ensures IsSubsequence(a, b)
  {
  }

  /** An entry already in `seen` is skipped: polling it alone yields nothing and changes nothing. */
  lemma SeenEntrySkipped(seen: set<string>, e: Entry)
    requires e.id.Some? && e.id.value in seen
    ensures PollEntries(seen, [e]) == PollOutcome(seen, [], false)
  {
    assert [e][1..] == [];
  }

  /** Everything `rss_source` yields over a succession of polls, and the final `seen`. */
  function Lifetime(seen: set<string>, feeds: seq<Feed>): (o: PollOutcome)
    ensures forall k :: 0 <= k < |o.yielded| ==> Yieldable(o.yielded[k])
    decreases |feeds|
  {
    if feeds == [] then PollOutcome(seen, [], false)
    else
      var first := PollFeed(seen, feeds[0]);
      var rest := Lifetime(first.seen, feeds[1..]);
      PollOutcome(rest.seen, first.yielded + rest.yielded, rest.aborted)
  }

  /** Over the lifetime `seen` only grows, and every yielded id is new before and in `seen` after. */
  lemma {:induction false} LifetimeFresh(seen: set<string>, feeds: seq<Feed>)
    ensures var o := Lifetime(seen, feeds);
      && seen <= o.seen
      && (forall k :: 0 <= k < |o.yielded| ==> o.yielded[k].id.value !in seen && o.yielded[k].id.value in o.seen)
    decreases |feeds|
  {
    if feeds != [] {
      var first := PollFeed(seen, feeds[0]);
      if feeds[0].Parsed? {
        PollFresh(seen, feeds[0].entries);
      }
      LifetimeFresh(first.seen, feeds[1..]);
    }
  }

  /** A feed that parsed and all of whose entries have an id, a title and a link. */
  predicate CleanFeed(f: Feed) {
    f.Parsed? && forall k :: 0 <= k < |f.entries| ==> Yieldable(f.entries[k])
  }

  /**
   * The completeness half over a lifetime: when every poll parses and every
   * entry is complete, each entry id of each poll is either in the initial
   * `seen` or yielded, and `seen` ends as the initial set plus the yielded ids.
   */
  lemma {:induction false} LifetimeComplete(seen: set<string>, feeds: seq<Feed>)
    ensures var o := Lifetime(seen, feeds);
      (forall i :: 0 <= i < |feeds| ==> CleanFeed(feeds[i])) ==>
        && o.seen == seen + IdSet(o.yielded)
        && forall i, k :: 0 <= i < |feeds| && feeds[i].Parsed? && 0 <= k < |feeds[i].entries| ==>
             feeds[i].entries[k].id.Some? &&
             (feeds[i].entries[k].id.value in seen || feeds[i].entries[k].id.value in IdSet(o.yielded))
    decreases |feeds|
  {
    if feeds != [] && forall i :: 0 <= i < |feeds| ==> CleanFeed(feeds[i]) {
      var first := PollFeed(seen, feeds[0]);
      assert CleanFeed(feeds[0]);
      PollComplete(seen, feeds[0].entries);
      var tail := feeds[1..];
      assert forall i :: 1 <= i < |feeds| ==> feeds[i] == tail[i - 1];
      assert forall i :: 0 <= i < |tail| ==> CleanFeed(tail[i]) by {
        forall i | 0 <= i < |tail| ensures CleanFeed(tail[i]) {
          assert tail[i] == feeds[i + 1];
        }
      }
      LifetimeComplete(first.seen, tail);
      var rest := Lifetime(first.seen, tail);
      IdSetConcat(first.yielded, rest.yielded);
    }
  }

  /**
   * Over its whole lifetime the feed source yields each entry id at most
   * once, never one that was in the initial `seen`, and `seen` only grows;
   * failed polls do not stop the polls that follow them.
   */
  lemma {:induction false} LifetimeYieldsEachIdOnce(seen: set<string>, feeds: seq<Feed>)
    ensures var o := Lifetime(seen, feeds);
      && seen <= o.seen
      && Distinct(Ids(o.yielded))
      && (forall k :: 0 <= k < |o.yielded| ==> o.yielded[k].id.value !in seen && o.yielded[k].id.value in o.seen)
    decreases |feeds|
  {
    LifetimeFresh(seen, feeds);
    if feeds != [] {
      var first := PollFeed(seen, feeds[0]);
      if feeds[0].Parsed? {
        PollDistinct(seen, feeds[0].entries);
        PollFresh(seen, feeds[0].entries);
      }
      LifetimeYieldsEachIdOnce(first.seen, feeds[1..]);
      var rest := Lifetime(first.seen, feeds[1..]);
      var y := first.yielded + rest.yielded;
      forall i, j | 0 <= i < j < |y| ensures Ids(y)[i] != Ids(y)[j] {
        if j < |first.yielded| {
          assert Ids(first.yielded)[i] != Ids(first.yielded)[j];
        } else if i >= |first.yielded| {
          assert Ids(rest.yielded)[i - |first.yielded|] != Ids(rest.yielded)[j - |first.yielded|];
        } else {
          assert Ids(y)[i] in first.seen;
          assert Ids(y)[j] == rest.yielded[j - |first.yielded|].id.value;
        }
      }
    }
  }

  /** The lifetime from poll `i` on is that poll followed by the lifetime from the next one. */
  lemma LifetimeStep(seen: set<string>, feeds: seq<Feed>, i: nat)
    requires i < |feeds|
    ensures var o := PollFeed(seen, feeds[i]);
      Lifetime(seen, feeds[i..]) == Prepend(o.yielded, Lifetime(o.seen, feeds[i + 1..]))
  {
    assert feeds[i..][0] == feeds[i] && feeds[i..][1..] == feeds[i + 1..];
  }

  lemma PrependTwice(ys: seq<Entry>, zs: seq<Entry>, o: PollOutcome)
    ensures Prepend(ys, Prepend(zs, o)) == Prepend(ys + zs, o)
  {
    assert ys + (zs + o.yielded) == (ys + zs) + o.yielded;
  }

  /**
   * The feed source `rss_source(url, poll_sec)`: its `seen` set lives as
   * long as the generator and is mutated in place while the entries are
   * iterated.
   */
  class RssSource {
    const url: string
    const pollSec: int
    var seen: set<string>

    constructor (url: string, pollSec: int)
      ensures this.url == url && this.pollSec == pollSec && seen == {}
    {
      this.url := url;
      this.pollSec := pollSec;
      seen := {};
    }

    /**
     * One iteration of the `while True` loop: parse, then walk the entries,
     * yielding each new one. An exception (a failed parse, or a missing
     * attribute on an entry) is caught and ends this poll only.
     */
    method Poll(feed: Feed) returns (events: seq<Event>)
      modifies this`seen
      ensures var o := PollFeed(old(seen), feed); seen == o.seen && events == RssEvents(o.yielded)
    {
      if feed.ParseFailed? {
        return [];
      }
      ghost var yielded: seq<Entry> := [];
      events := [];
      var rest := feed.entries;
      while rest != []
        invariant events == RssEvents(yielded)
        invariant PollEntries(old(seen), feed.entries) == Prepend(yielded, PollEntries(seen, rest))
        decreases |rest|
      {
        var e := rest[0];
        ghost var s0 := seen;
        if e.id.None? {
          assert PollEntries(s0, rest) == PollOutcome(s0, [], true);
          assert yielded + [] == yielded;
          return;
        }
        if e.id.value !in seen {
          seen := seen + {e.id.value};
          if e.title.None? || e.link.None? {
            assert PollEntries(s0, rest) == PollOutcome(seen, [], true);
            assert yielded + [] == yielded;
            return;
          }
          ghost var after := PollEntries(seen, rest[1..]);
          assert PollEntries(s0, rest) == Prepend([e], after);
          assert Prepend(yielded, Prepend([e], after)) == Prepend(yielded + [e], after);
          RssEventsConcat(yielded, [e]);
          events := events + [RssEvent(e)];
          yielded := yielded + [e];
        } else {
          assert PollEntries(s0, rest) == PollEntries(s0, rest[1..]);
        }
        rest := rest[1..];
      }
      assert yielded + [] == yielded;
    }

    /** The `while True` loop over the polls it gets to make; the sleeps between polls are not modelled. */
    method Run(feeds: seq<Feed>) returns (events: seq<Event>)
      modifies this`seen
      ensures var o := Lifetime(old(seen), feeds); seen == o.seen && events == RssEvents(o.yielded)
    {
      events := [];
      ghost var yielded: seq<Entry> := [];
      var i := 0;
      while i < |feeds|
        invariant 0 <= i <= |feeds|
        invariant events == RssEvents(yielded)
        invariant Lifetime(old(seen), feeds) == Prepend(yielded, Lifetime(seen, feeds[i..]))
      {
        ghost var o := PollFeed(seen, feeds[i]);
        LifetimeStep(seen, feeds, i);
        PrependTwice(yielded, o.yielded, Lifetime(o.seen, feeds[i + 1..]));
        var batch := Poll(feeds[i]);
        RssEventsConcat(yielded, o.yielded);
        events := events + batch;
        yielded := yielded + o.yielded;
        i := i + 1;
      }
      assert yielded + [] == yielded;
    }
  }
}
