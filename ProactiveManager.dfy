/**
 * The proactive notification engine (src/open_llm_vtuber/proactive_manager.py).
 *
 * Every event goes through the same pipeline: the `enabled` gate, the
 * bypass for ticks, the decision policy (a keyword rule without an LLM; the
 * LLM's streamed YES/NO otherwise, failing closed), the message composer,
 * and one call of the broadcast sink whose exceptions are swallowed.
 *
 * The LLM's reply to one event is an input `Stream<string>`; the sink is
 * recorded as the list of calls made to it, each of which may raise. The
 * fan-in of concurrent sources is replaced by the sequence of steps the
 * consumer loop sees: events arriving, and `enable`, `disable` and `stop`
 * calls made between them.
 */
module ProactiveManager {
  import opened Common
  import opened Text
  import opened EventSources

  /** The keywords of the rule strategy, in the order the code tries them. */
  const Keywords: seq<string> := ["episode", "new", "update", "release", "announced"]

  /** The one answer of the LLM strategy that counts as a yes. */
  const Yes: string := "YES"

  const RssPrefix: string := "\U{1F4E2} New update: "

  // ---------------------------------------------------------------------
  // Decision policy
  // ---------------------------------------------------------------------

  /** `any(keyword in title for keyword in keywords)`. */
  function AnyKeyword(title: string, keywords: seq<string>): (b: bool)
    ensures b <==> exists k :: 0 <= k < |keywords| && Contains(title, keywords[k])
  {
    if keywords == [] then false
    else Contains(title, keywords[0]) || AnyKeyword(title, keywords[1..])
  }

  /**
   * The rule strategy, used when no LLM is configured: a feed event is
   * worth a notification iff its lower-cased title (default `""`) contains
   * one of the keywords; every other kind of event is not.
   */
  function RuleDecision(e: Event): (b: bool)
    ensures b <==> e.kind == RssKind
                   && exists k :: 0 <= k < |Keywords| && Contains(Lower(Get(e.payload, "title", "")), Keywords[k])
  {
    if e.kind == RssKind then AnyKeyword(Lower(Get(e.payload, "title", "")), Keywords) else false
  }

  /** Every token with its surrounding whitespace stripped. */
  function StripAll(tokens: seq<string>): (r: seq<string>)
    ensures |r| == |tokens|
  {
    seq(|tokens|, i requires 0 <= i < |tokens| => Strip(tokens[i]))
  }

  lemma StripAllStep(tokens: seq<string>)
    requires tokens != []
    ensures Concat(StripAll(tokens)) == Strip(tokens[0]) + Concat(StripAll(tokens[1..]))
  {
    assert StripAll(tokens)[1..] == StripAll(tokens[1..]);
  }

  lemma ConcatAssoc(a: string, b: string, c: string)
    ensures a + (b + c) == (a + b) + c
  {
  }

  /** Stripping the whole answer once more cannot add or remove a `"YES"`. */
  lemma YesSurvivesStrip(s: string)
    ensures Contains(Upper(Strip(s)), Yes) <==> Contains(Upper(s), Yes)
  {
    assert NoSpace(Yes) by {
      assert Yes == ['Y', 'E', 'S'];
    }
    StripKeepsOccurrence(s, Yes);
  }

  /**
   * The verdict of the LLM strategy on one reply: yes iff the stream ran
   * to its end and `"YES"` occurs in the upper-cased concatenation of its
   * stripped tokens. A stream that raises is a no, whatever it said before.
   */
  function LlmVerdict(reply: Stream<string>): bool {
    !reply.raises && Contains(Upper(Concat(StripAll(reply.items))), Yes)
  }

  lemma {:induction false} ConcatSplit(a: seq<string>, b: seq<string>)
    ensures Concat(a + b) == Concat(a) + Concat(b)
    decreases |a|
  {
    if a != [] {
      assert (a + b)[0] == a[0] && (a + b)[1..] == a[1..] + b;
      ConcatSplit(a[1..], b);
    } else {
      assert a + b == b;
    }
  }

  lemma ConcatAt(parts: seq<string>, k: nat)
    requires k < |parts|
    ensures Concat(parts) == Concat(parts[..k]) + (parts[k] + Concat(parts[k + 1..]))
  {
    assert parts == parts[..k] + parts[k..];
    ConcatSplit(parts[..k], parts[k..]);
    assert parts[k..][0] == parts[k] && parts[k..][1..] == parts[k + 1..];
  }

  lemma StripAllSlices(tokens: seq<string>, k: nat)
    requires k < |tokens|
    ensures StripAll(tokens)[..k] == StripAll(tokens[..k])
    ensures StripAll(tokens)[k] == Strip(tokens[k])
    ensures StripAll(tokens)[k + 1..] == StripAll(tokens[k + 1..])
  {
  }

  lemma ConcatStripAllAt(tokens: seq<string>, k: nat)
    requires k < |tokens|
    ensures Concat(StripAll(tokens)) == Concat(StripAll(tokens[..k])) + (Strip(tokens[k]) + Concat(StripAll(tokens[k + 1..])))
  {
    ConcatAt(StripAll(tokens), k);
    StripAllSlices(tokens, k);
  }

  /**
   * A `"YES"` in any single token of a complete reply, in any case and
   * with any whitespace around it, makes the verdict yes.
   */
  lemma YesInOneToken(tokens: seq<string>, k: nat)
    requires k < |tokens| && Contains(Upper(tokens[k]), Yes)
    ensures LlmVerdict(Stream(tokens, false))
  {
    var pre, mid, post := Concat(StripAll(tokens[..k])), Strip(tokens[k]), Concat(StripAll(tokens[k + 1..]));
    ConcatStripAllAt(tokens, k);
    YesSurvivesStrip(tokens[k]);
    UpperSplit(pre + (mid + post), pre, mid, post);
    ContainsExtendRight(Upper(mid), Upper(post), Yes);
    ContainsExtendLeft(Upper(pre), Upper(mid) + Upper(post), Yes);
  }

  /** The decision policy selected by the configuration. */
  function Decision(hasLlm: bool, e: Event, reply: Stream<string>): bool {
    if hasLlm then LlmVerdict(reply) else RuleDecision(e)
  }

  /**
   * The code's own rule accepts the title "Boring maintenance update",
   * because it contains the keyword "update"; only the LLM path of the
   * tests rejects it.
   */
  lemma RuleAcceptsAnyUpdate(title: string, link: string)
    requires Contains(Lower(title), "update")
    ensures RuleDecision(Event(RssKind, map["title" := title, "link" := link]))
  {
    assert Keywords[2] == "update";
  }

  /** Without an LLM only feed events can ever be notified. */
  lemma RuleRejectsOtherKinds(e: Event)
    requires e.kind != RssKind
    ensures !Decision(false, e, Stream([], false))
  {
  }

  // ---------------------------------------------------------------------
  // Message composer
  // ---------------------------------------------------------------------

  /**
   * `_generate_proactive_message`: total, one text for every event. A tick
   * gets the configured reminder text; a feed event its title (default
   * `"Unknown"`) behind the announcement prefix, then `" - " + link` only
   * when the link is non-empty; a message event its `text` field or
   * `"New message received"`; anything else a generic phrase.
   */
  function Compose(ruleText: string, e: Event): string {
    if e.kind == TickKind then ruleText
    else if e.kind == RssKind then
      var link := Get(e.payload, "link", "");
      RssPrefix + Get(e.payload, "title", "Unknown") + (if link != "" then " - " + link else "")
    else if e.kind == MessageKind then Get(e.payload, "text", "New message received")
    else "Something interesting happened!"
  }

  /** A feed notification names the title, and ends with the link exactly when there is one. */
  lemma ComposeFeed(ruleText: string, e: Event)
    requires e.kind == RssKind
    ensures var text := Compose(ruleText, e);
      var title := Get(e.payload, "title", "Unknown");
      var link := Get(e.payload, "link", "");
      && StartsWith(text, RssPrefix + title)
      && (link == "" ==> text == RssPrefix + title)
      && (link != "" ==> text[|RssPrefix + title|..] == " - " + link)
  {
    var title := Get(e.payload, "title", "Unknown");
    var link := Get(e.payload, "link", "");
    assert RssKind != TickKind;
    if link != "" {
      assert Compose(ruleText, e) == (RssPrefix + title) + (" - " + link);
    } else {
      assert Compose(ruleText, e) == RssPrefix + title + "";
    }
  }

  // ---------------------------------------------------------------------
  // What one event makes the manager broadcast
  // ---------------------------------------------------------------------

  /** The payload handed to the broadcast sink: `{type, text, source[, event_data]}`. */
  datatype Notification = Notification(msgType: string, text: string, source: string, eventData: Option<Payload>)

  const ProactiveMessage: string := "proactive_message"
  const TimeBased: string := "time_based"

  /** The broadcast made for a tick: no `event_data`, source `"time_based"`. */
  function TickNotification(ruleText: string): Notification {
    Notification(ProactiveMessage, ruleText, TimeBased, None)
  }

  /** The broadcast made for an accepted non-tick event: its kind as source, its payload as event data. */
  function EventNotification(ruleText: string, e: Event): Notification {
    Notification(ProactiveMessage, Compose(ruleText, e), e.kind, Some(e.payload))
  }

  /** The calls `_process_event` makes to the sink for one event: none or one. */
  function Outgoing(hasLlm: bool, ruleText: string, enabled: bool, e: Event, reply: Stream<string>): seq<Notification> {
    if !enabled then []
    else if e.kind == TickKind then [TickNotification(ruleText)]
    else if Decision(hasLlm, e, reply) then [EventNotification(ruleText, e)]
    else []
  }

  // ---------------------------------------------------------------------
  // The consumer loop as a function of what it sees
  // ---------------------------------------------------------------------

  /**
   * What the consumer loop sees next: an event taken from the queue (with
   * the LLM's reply to it and whether the sink raises when it is
   * broadcast), or a call of `enable`, `disable` or `stop` made meanwhile.
   */
  datatype Step =
    | Arrive(event: Event, reply: Stream<string>, sinkRaises: bool)
    | EnableCall
    | DisableCall
    | StopCall

  datatype Snapshot = Snapshot(enabled: bool, calls: seq<Notification>)

  /**
   * The `while self._running` loop: events are processed in order, each
   * under the `enabled` flag of that moment; after a `stop` nothing more is
   * taken from the queue.
   */
  function Consume(hasLlm: bool, ruleText: string, enabled: bool, calls: seq<Notification>, steps: seq<Step>): Snapshot
    decreases |steps|
  {
    if steps == [] then Snapshot(enabled, calls)
    else match steps[0]
      case StopCall => Snapshot(enabled, calls)
      case EnableCall => Consume(hasLlm, ruleText, true, calls, steps[1..])
      case DisableCall => Consume(hasLlm, ruleText, false, calls, steps[1..])
      case Arrive(e, reply, _) =>
        Consume(hasLlm, ruleText, enabled, calls + Outgoing(hasLlm, ruleText, enabled, e, reply), steps[1..])
  }

  predicate HasStop(steps: seq<Step>) {
    exists k :: 0 <= k < |steps| && steps[k].StopCall?
  }

  predicate HasEnable(steps: seq<Step>) {
    exists k :: 0 <= k < |steps| && steps[k].EnableCall?
  }

  function ArrivalCount(steps: seq<Step>): nat {
    if steps == [] then 0 else (if steps[0].Arrive? then 1 else 0) + ArrivalCount(steps[1..])
  }

  /**
   * Disabled means silent: while no `enable` comes, the sink is not called
   * at all, whatever events arrive.
   */
  lemma {:induction false} DisabledSendsNothing(hasLlm: bool, ruleText: string, calls: seq<Notification>, steps: seq<Step>)
    requires !HasEnable(steps)
    ensures Consume(hasLlm, ruleText, false, calls, steps).calls == calls
    decreases |steps|
  {
    if steps != [] {
      assert !steps[0].EnableCall?;
      assert !HasEnable(steps[1..]) by {
        forall k | 0 <= k < |steps[1..]| ensures !steps[1..][k].EnableCall? {
          assert steps[1..][k] == steps[k + 1];
        }
      }
      DisabledSendsNothing(hasLlm, ruleText, calls, steps[1..]);
      if steps[0].Arrive? {
        assert calls + Outgoing(hasLlm, ruleText, false, steps[0].event, steps[0].reply) == calls;
      }
    }
  }

  /**
   * Each event causes at most one broadcast, the calls already made are
   * kept, and with the manager enabled throughout every tick causes exactly
   * one, carrying the reminder text.
   */
  lemma {:induction false} AtMostOneBroadcastPerEvent(hasLlm: bool, ruleText: string, enabled: bool, calls: seq<Notification>, steps: seq<Step>)
    ensures var r := Consume(hasLlm, ruleText, enabled, calls, steps);
      |calls| <= |r.calls| <= |calls| + ArrivalCount(steps) && r.calls[..|calls|] == calls
    decreases |steps|
  {
    if steps != [] {
      match steps[0]
      case StopCall =>
      case EnableCall => AtMostOneBroadcastPerEvent(hasLlm, ruleText, true, calls, steps[1..]);
      case DisableCall => AtMostOneBroadcastPerEvent(hasLlm, ruleText, false, calls, steps[1..]);
      case Arrive(e, reply, _) =>
        var next := calls + Outgoing(hasLlm, ruleText, enabled, e, reply);
        AtMostOneBroadcastPerEvent(hasLlm, ruleText, enabled, next, steps[1..]);
        var r := Consume(hasLlm, ruleText, enabled, next, steps[1..]);
        assert r.calls[..|calls|] == next[..|next|][..|calls|];
    }
  }

  /** Ticks bypass the decision policy: an enabled tick is broadcast whatever the LLM would have said. */
  lemma TickBypassesPolicy(hasLlm: bool, ruleText: string, e: Event, reply: Stream<string>)
    requires e.kind == TickKind
    ensures Outgoing(hasLlm, ruleText, true, e, reply) == [TickNotification(ruleText)]
    ensures Outgoing(hasLlm, ruleText, true, e, reply) == Outgoing(hasLlm, ruleText, true, e, Stream([], true))
  {
  }

  function Range(n: nat): (r: seq<nat>)
    ensures |r| == n && forall k :: 0 <= k < n ==> r[k] == k
  {
    seq(n, k requires 0 <= k < n => k)
  }

  /**
   * `ProactiveChatManager`: the `_enabled`, `_running` and `_tasks` state,
   * with the broadcast sink's calls recorded in `calls`. A task is named by
   * the index of the source it drains.
   */
  class ProactiveChatManager {
    const ruleText: string
    const hasLlm: bool
    var enabled: bool
    var running: bool
    var tasks: seq<nat>
    var calls: seq<Notification>

    /** `llm_cfg` reduced to whether an LLM could be created from it. */
    constructor (ruleText: string, hasLlm: bool, enabled: bool)
      ensures this.ruleText == ruleText && this.hasLlm == hasLlm && this.enabled == enabled
      ensures !running && tasks == [] && calls == []
    {
      this.ruleText := ruleText;
      this.hasLlm := hasLlm;
      this.enabled := enabled;
      running := false;
      tasks := [];
      calls := [];
    }

    function IsEnabled(): bool
      reads this
    {
      enabled
    }

    function IsRunning(): bool
      reads this
    {
      running
    }

    /**
     * The LLM branch of `_should_notify`: the tokens are stripped and
     * concatenated one by one; an exception anywhere in the stream is
     * caught and answers no.
     */
    method AskLlm(reply: Stream<string>) returns (notify: bool)
      ensures notify <==> !reply.raises && Contains(Upper(Concat(StripAll(reply.items))), Yes)
      ensures reply.raises ==> !notify
    {
      var responseText := "";
      var rest := reply.items;
      while rest != []
        invariant Concat(StripAll(reply.items)) == responseText + Concat(StripAll(rest))
        decreases |rest|
      {
        var token := Strip(rest[0]);
        StripAllStep(rest);
        ConcatAssoc(responseText, token, Concat(StripAll(rest[1..])));
        responseText := responseText + token;
        rest := rest[1..];
      }
      assert StripAll(rest) == [];
      assert responseText + "" == responseText;
      assert responseText == Concat(StripAll(reply.items));
      if reply.raises {
        return false;
      }
      var answer := Upper(Strip(responseText));
      YesSurvivesStrip(responseText);
      notify := Contains(answer, Yes);
    }

    /** `_should_notify`: the rule without an LLM, the LLM's verdict with one. */
    method ShouldNotify(e: Event, reply: Stream<string>) returns (notify: bool)
      ensures !hasLlm ==> (notify <==> RuleDecision(e))
      ensures hasLlm ==> (notify <==> LlmVerdict(reply))
    {
      if !hasLlm {
        if e.kind == RssKind {
          var title := Lower(Get(e.payload, "title", ""));
          return AnyKeyword(title, Keywords);
        }
        return false;
      }
      notify := AskLlm(reply);
    }

    /**
     * One call of the sink. The call is recorded whether or not the sink
     * raises (`sinkRaises`): the call has been made either way, and the
     * `except` of `_process_event` only logs the exception, so a raise
     * changes nothing else.
     */
    method Broadcast(n: Notification, sinkRaises: bool)
      modifies this`calls
      ensures calls == old(calls) + [n]
    {
      calls := calls + [n];
    }

    /**
     * `_process_event`: nothing at all while disabled; a tick is broadcast
     * with the reminder text and source `"time_based"` without asking the
     * policy; any other event is broadcast once, with its kind as source and
     * its payload as event data, iff the policy accepts it.
     */
    method ProcessEvent(e: Event, reply: Stream<string>, sinkRaises: bool)
      modifies this`calls
      ensures !enabled ==> calls == old(calls)
      ensures enabled && e.kind == TickKind ==> calls == old(calls) + [TickNotification(ruleText)]
      ensures enabled && e.kind != TickKind ==>
        calls == old(calls) + (if Decision(hasLlm, e, reply) then [EventNotification(ruleText, e)] else [])
    {
      if !enabled {
        return;
      }
      if e.kind == TickKind {
        var text := Compose(ruleText, e);
        Broadcast(Notification(ProactiveMessage, text, TimeBased, None), sinkRaises);
        return;
      }
      var accept := ShouldNotify(e, reply);
      if accept {
        var text := Compose(ruleText, e);
        Broadcast(Notification(ProactiveMessage, text, e.kind, Some(e.payload)), sinkRaises);
      }
    }

    /** `stop`: a no-op unless running; otherwise not running and no tasks left. */
    method Stop()
      modifies this`running, this`tasks
      ensures old(running) ==> !running && tasks == []
      ensures !old(running) ==> running == old(running) && tasks == old(tasks)
    {
      if !running {
        return;
      }
      running := false;
      tasks := [];
    }

    method Enable()
      modifies this`enabled
      ensures enabled
    {
      enabled := true;
    }

    method Disable()
      modifies this`enabled
      ensures !enabled
    {
      enabled := false;
    }

    /**
     * `run(sources)`: a no-op while already running. Otherwise it starts one
     * task per source and consumes the steps in order until a `stop`; the
     * sink calls are those of `Consume`. After a `stop` the manager is idle
     * with no tasks; if the steps run out first, it is still running, waiting
     * for the next event.
     */
    method Run(sourceCount: nat, steps: seq<Step>)
      modifies this`enabled, this`running, this`tasks, this`calls
      ensures old(running) ==> running && enabled == old(enabled) && tasks == old(tasks) && calls == old(calls)
      ensures !old(running) ==> Snapshot(enabled, calls) == Consume(hasLlm, ruleText, old(enabled), old(calls), steps)
      ensures !old(running) ==> running == !HasStop(steps)
      ensures !old(running) ==> tasks == if running then Range(sourceCount) else []
    {
      if running {
        return;
      }
      running := true;
      tasks := Range(sourceCount);
      var rest := steps;
      while rest != [] && running
        invariant running ==> tasks == Range(sourceCount)
        invariant !running ==> tasks == []
        invariant running ==> Consume(hasLlm, ruleText, old(enabled), old(calls), steps) == Consume(hasLlm, ruleText, enabled, calls, rest)
        invariant !running ==> Consume(hasLlm, ruleText, old(enabled), old(calls), steps) == Snapshot(enabled, calls)
        invariant HasStop(steps) <==> (!running || HasStop(rest))
        decreases |rest|
      {
        assert HasStop(rest) <==> rest[0].StopCall? || HasStop(rest[1..]) by {
          assert forall k :: 0 <= k < |rest[1..]| ==> rest[1..][k] == rest[k + 1];
          if HasStop(rest) && !rest[0].StopCall? {
            var k :| 0 <= k < |rest| && rest[k].StopCall?;
            assert rest[1..][k - 1] == rest[k];
          }
        }
        ghost var r := Consume(hasLlm, ruleText, enabled, calls, rest);
        ghost var c0 := calls;
        match rest[0] {
          case StopCall =>
            Stop();
          case EnableCall =>
            Enable();
            assert r == Consume(hasLlm, ruleText, enabled, calls, rest[1..]);
          case DisableCall =>
            Disable();
            assert r == Consume(hasLlm, ruleText, enabled, calls, rest[1..]);
          case Arrive(e, reply, sinkRaises) =>
            ProcessEvent(e, reply, sinkRaises);
            assert calls == c0 + Outgoing(hasLlm, ruleText, enabled, e, reply);
            assert r == Consume(hasLlm, ruleText, enabled, calls, rest[1..]);
        }
        rest := rest[1..];
      }
      if !running {
        // `finally: await self.stop()`, which finds the manager already stopped.
        Stop();
      }
    }
  }
}
