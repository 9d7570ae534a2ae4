/**
 * The conversation bookkeeping of `AdvancedMem0LLMAgent`
 * (src/open_llm_vtuber/agent/agents/mem0_llm.py): the bounded buffer of
 * the 20 most recent messages, how an interruption rewrites it, how the
 * system prompt is assembled from the three memory layers, and how the
 * long-term memories are clustered into insights.
 *
 * The three mem0 layers are reduced to what the agent hands them and gets
 * back: the search hits are input lists of memory texts, the `add` calls
 * are recorded, and the insight layer is the list of insights it holds.
 * The chat-completion stream is an input stream of optional deltas; the
 * insight summariser is a function parameter that may fail (`None`).
 */
module Mem0Agent {
  import opened Common
  import opened Text
  import opened Seqs

  /** `MAX_SHORT_MESSAGES`: the capacity of the conversation buffer. */
  const MaxShortMessages: nat := 20
  /** `CHUNK_SIZE` of the insight clustering. */
  const ChunkSize: nat := 20

  /** One buffered message, `{"role": ..., "content": ...}`. */
  datatype Entry = Entry(role: string, content: string)

  const Interruption: Entry := Entry("system", "[Interrupted by user]")

  /** What an interrupted reply becomes: what was heard, then an ellipsis. */
  function Heard(heardResponse: string): string {
    heardResponse + "\U{2026}"
  }

  /** `deque(maxlen=20).append(e)`: the newest 20 of the old contents and `e`. */
  function Pushed(buffer: seq<Entry>, e: Entry): seq<Entry> {
    LastN(buffer + [e], MaxShortMessages)
  }

  /**
   * The buffer after `handle_interrupt`: a trailing assistant message is
   * overwritten in place with what was heard, otherwise that message is
   * appended; then the interruption marker is appended.
   */
  function AfterInterrupt(buffer: seq<Entry>, heardResponse: string): seq<Entry> {
    var reply := Entry("assistant", Heard(heardResponse));
    var marked := if buffer != [] && buffer[|buffer| - 1].role == "assistant"
      then buffer[|buffer| - 1 := reply]
      else Pushed(buffer, reply);
    Pushed(marked, Interruption)
  }

  /** Appending to a full buffer drops exactly the oldest entry; otherwise nothing is lost. */
  lemma PushedDropsOldest(buffer: seq<Entry>, e: Entry)
    requires |buffer| <= MaxShortMessages
    ensures |buffer| < MaxShortMessages ==> Pushed(buffer, e) == buffer + [e]
    ensures |buffer| == MaxShortMessages ==> Pushed(buffer, e) == buffer[1..] + [e]
    ensures |Pushed(buffer, e)| <= MaxShortMessages
  {
    if |buffer| == MaxShortMessages {
      assert (buffer + [e])[1..] == buffer[1..] + [e];
    }
  }

  /**
   * After an interruption the buffer ends with the heard reply and the
   * marker, and has grown by one (a trailing reply was rewritten) or two,
   * up to the capacity.
   */
  lemma InterruptShape(buffer: seq<Entry>, heardResponse: string)
    requires |buffer| <= MaxShortMessages
    ensures var b := AfterInterrupt(buffer, heardResponse);
      var grown := if buffer != [] && buffer[|buffer| - 1].role == "assistant" then 1 else 2;
      && |b| == Min(MaxShortMessages, |buffer| + grown)
      && |b| >= 2
      && b[|b| - 1] == Interruption
      && b[|b| - 2] == Entry("assistant", Heard(heardResponse))
  {
    var reply := Entry("assistant", Heard(heardResponse));
    if buffer != [] && buffer[|buffer| - 1].role == "assistant" {
      var marked := buffer[|buffer| - 1 := reply];
      PushedEnd(marked, Interruption);
    } else {
      PushedEnd(buffer, reply);
      var marked := Pushed(buffer, reply);
      PushedEnd(marked, Interruption);
    }
  }

  /** The newest entry is the one appended, after the previous newest; the length grows by one up to the capacity. */
  lemma PushedEnd(buffer: seq<Entry>, e: Entry)
    requires |buffer| <= MaxShortMessages
    ensures var b := Pushed(buffer, e);
      && |b| == Min(MaxShortMessages, |buffer| + 1)
      && b[|b| - 1] == e
      && (buffer != [] ==> b[|b| - 2] == buffer[|buffer| - 1])
  {
    PushedDropsOldest(buffer, e);
  }

  /** Pushing messages one at a time keeps the newest 20 of everything. */
  lemma PushAll(buffer: seq<Entry>, es: seq<Entry>, k: nat)
    requires k < |es|
    ensures Pushed(LastN(buffer + es[..k], MaxShortMessages), es[k]) == LastN(buffer + es[..k + 1], MaxShortMessages)
  {
    LastNAppend(buffer + es[..k], [es[k]], MaxShortMessages);
    assert buffer + es[..k] + [es[k]] == buffer + es[..k + 1];
  }

  /** History entries as buffer entries, roles mapped. */
  function Mapped(history: seq<HistoryEntry>): (r: seq<Entry>)
    ensures |r| == |history|
    ensures forall k :: 0 <= k < |r| ==> r[k] == Entry(MapRole(history[k].role), history[k].content)
  {
    seq(|history|, k requires 0 <= k < |history| => Entry(MapRole(history[k].role), history[k].content))
  }

  /** One short-term `add` call per entry, each of that entry alone. */
  function Singletons(es: seq<Entry>): seq<seq<Entry>> {
    if es == [] then [] else [[es[0]]] + Singletons(es[1..])
  }

  lemma {:induction false} SingletonsAppend(es: seq<Entry>, k: nat)
    requires k < |es|
    ensures Singletons(es[..k + 1]) == Singletons(es[..k]) + [[es[k]]]
    decreases k
  {
    if k == 0 {
      assert es[..1] == [es[0]];
      assert es[..1][1..] == [];
    } else {
      SingletonsAppend(es[1..], k - 1);
      assert es[1..][..k] == es[..k + 1][1..];
      assert es[1..][..k - 1] == es[..k][1..];
      assert es[1..][k - 1] == es[k];
    }
  }

  /** `_fmt`: the memory texts one per line, or nothing. */
  function Fmt(memories: seq<string>): string {
    if memories == [] then "" else Join("\n", memories)
  }

  const InsightsHeading: string := "## User Insights\n"
  const LongTermHeading: string := "## Long\U{2011}Term Memories\n"
  const ShortTermHeading: string := "## Recent Conversation Snippets\n"

  /** The sections of the system prompt: the template, then each formatted layer that is not empty. */
  function SystemSections(template: string, insights: string, long: string, short: string): seq<string> {
    [template]
    + (if insights != "" then [InsightsHeading + insights] else [])
    + (if long != "" then [LongTermHeading + long] else [])
    + (if short != "" then [ShortTermHeading + short] else [])
  }

  function SystemText(template: string, insightHits: seq<string>, longHits: seq<string>, shortHits: seq<string>): string {
    Join("\n\n", SystemSections(template, Fmt(insightHits), Fmt(longHits), Fmt(shortHits)))
  }

  /**
   * The prompt begins with the template and is the template alone when no
   * layer has anything to say; a layer whose formatted text is empty
   * adds no section.
   */
  lemma SystemTextShape(template: string, insightHits: seq<string>, longHits: seq<string>, shortHits: seq<string>)
    ensures StartsWith(SystemText(template, insightHits, longHits, shortHits), template)
    ensures Fmt(insightHits) == "" && Fmt(longHits) == "" && Fmt(shortHits) == "" ==>
              SystemText(template, insightHits, longHits, shortHits) == template
    ensures |SystemSections(template, Fmt(insightHits), Fmt(longHits), Fmt(shortHits))|
            == 1 + (if Fmt(insightHits) != "" then 1 else 0) + (if Fmt(longHits) != "" then 1 else 0) + (if Fmt(shortHits) != "" then 1 else 0)
  {
    JoinStartsWith("\n\n", SystemSections(template, Fmt(insightHits), Fmt(longHits), Fmt(shortHits)));
  }

  /** The text a cluster of memories is summarised from. */
  function SummaryPrompt(cluster: seq<string>): string {
    SummaryInstruction + Join("\n", cluster)
  }

  const SummaryInstruction: string :=
    "You are an AI assistant. Summarise the following user facts/messages into a **concise insight** that would help you serve the user better in future chats (max 60 words).\n\n"

  /** The insights from a list of clusters: one stripped summary per cluster whose summary succeeded, in order. */
  function Summaries(clusters: seq<seq<string>>, summarize: string -> Option<string>): (r: seq<string>)
    ensures |r| <= |clusters|
  {
    if clusters == [] then []
    else
      var s := summarize(SummaryPrompt(clusters[0]));
      (if s.Some? then [Strip(s.value)] else []) + Summaries(clusters[1..], summarize)
  }

  /** Every cluster yields its insight when no summary fails. */
  lemma {:induction false} AllSummariesSucceed(clusters: seq<seq<string>>, summarize: string -> Option<string>)
    requires forall k :: 0 <= k < |clusters| ==> summarize(SummaryPrompt(clusters[k])).Some?
    ensures |Summaries(clusters, summarize)| == |clusters|
  {
    if clusters != [] {
      assert summarize(SummaryPrompt(clusters[0])).Some?;
      forall k | 0 <= k < |clusters| - 1
        ensures summarize(SummaryPrompt(clusters[1..][k])).Some?
      {
        assert clusters[1..][k] == clusters[k + 1];
      }
      AllSummariesSucceed(clusters[1..], summarize);
    }
  }

  /** `AdvancedMem0LLMAgent`. */
  class AdvancedMem0LLMAgent {
    const systemPromptTemplate: string
    var buffer: seq<Entry>
    /** Every `add` call on the short-term layer, in order. */
    var shortTermAdds: seq<seq<Entry>>
    /** Every `add` call on the long-term layer, in order. */
    var longTermAdds: seq<seq<HistoryEntry>>
    /** What the insight layer holds. */
    var insights: seq<string>

    predicate Valid()
      reads this
    {
      |buffer| <= MaxShortMessages
    }

    constructor (systemPromptTemplate: string)
      ensures Valid()
      ensures this.systemPromptTemplate == systemPromptTemplate
      ensures buffer == [] && shortTermAdds == [] && longTermAdds == [] && insights == []
    {
      this.systemPromptTemplate := systemPromptTemplate;
      buffer := [];
      shortTermAdds := [];
      longTermAdds := [];
      insights := [];
    }

    method Append(e: Entry)
      requires Valid()
      modifies this`buffer
      ensures Valid()
      ensures buffer == Pushed(old(buffer), e)
    {
      if |buffer| == MaxShortMessages {
        buffer := buffer[1..] + [e];
      } else {
        buffer := buffer + [e];
      }
      PushedDropsOldest(old(buffer), e);
    }

    /** `handle_interrupt`. */
    method HandleInterrupt(heardResponse: string)
      requires Valid()
      modifies this`buffer
      ensures Valid()
      ensures buffer == AfterInterrupt(old(buffer), heardResponse)
    {
      if buffer != [] && buffer[|buffer| - 1].role == "assistant" {
        buffer := buffer[|buffer| - 1 := Entry("assistant", Heard(heardResponse))];
      } else {
        Append(Entry("assistant", Heard(heardResponse)));
      }
      Append(Interruption);
    }

    /**
     * `set_memory_from_history`: the last 20 history entries, roles
     * mapped, are appended to the buffer (which is not reset) and each is
     * added to the short-term layer; the whole history goes to the
     * long-term layer.
     */
    method SetMemoryFromHistory(history: seq<HistoryEntry>)
      requires Valid()
      modifies this`buffer, this`shortTermAdds, this`longTermAdds
      ensures Valid()
      ensures buffer == LastN(old(buffer) + Mapped(LastN(history, MaxShortMessages)), MaxShortMessages)
      ensures shortTermAdds == old(shortTermAdds) + Singletons(Mapped(LastN(history, MaxShortMessages)))
      ensures longTermAdds == old(longTermAdds) + [history]
    {
      PushHistory(LastN(history, MaxShortMessages));
      longTermAdds := longTermAdds + [history];
    }

    /** One step of that loop: the entry enters the buffer and is added to short-term memory alone. */
    method Record(e: Entry)
      requires Valid()
      modifies this`buffer, this`shortTermAdds
      ensures Valid()
      ensures buffer == Pushed(old(buffer), e)
      ensures shortTermAdds == old(shortTermAdds) + [[e]]
    {
      Append(e);
      shortTermAdds := shortTermAdds + [[e]];
    }

    /** The loop of `set_memory_from_history` over the recent entries. */
    method PushHistory(tail: seq<HistoryEntry>)
      requires Valid()
      modifies this`buffer, this`shortTermAdds
      ensures Valid()
      ensures buffer == LastN(old(buffer) + Mapped(tail), MaxShortMessages)
      ensures shortTermAdds == old(shortTermAdds) + Singletons(Mapped(tail))
    {
      ghost var recent := Mapped(tail);
      assert old(buffer) + recent[..0] == old(buffer);
      for k := 0 to |tail|
        invariant Valid()
        invariant buffer == LastN(old(buffer) + recent[..k], MaxShortMessages)
        invariant shortTermAdds == old(shortTermAdds) + Singletons(recent[..k])
      {
        var role := if tail[k].role == "human" then "user" else "assistant";
        var e := Entry(role, tail[k].content);
        assert e == recent[k];
        Record(e);
        assert buffer == LastN(old(buffer) + recent[..k + 1], MaxShortMessages) by {
          PushAll(old(buffer), recent, k);
        }
        assert shortTermAdds == old(shortTermAdds) + Singletons(recent[..k + 1]) by {
          SingletonsAppend(recent, k);
        }
      }
      assert recent[..|tail|] == recent;
    }

    /**
     * `_chat_iter`: the prompt is buffered first; the context is the
     * system message followed by the buffer; the deltas are passed on with
     * `None` as `""`; a reply that completes is buffered as the assistant's
     * message. Each buffered message is also added to the short-term layer.
     */
    method ChatIter(prompt: string, shortHits: seq<string>, longHits: seq<string>, insightHits: seq<string>,
                    deltas: Stream<Option<string>>)
      returns (context: seq<Entry>, yielded: seq<string>)
      requires Valid()
      modifies this`buffer, this`shortTermAdds
      ensures Valid()
      ensures var user := Entry("user", prompt);
        && context == [Entry("system", SystemText(systemPromptTemplate, insightHits, longHits, shortHits))] + Pushed(old(buffer), user)
        && |yielded| == |deltas.items|
        && (forall k :: 0 <= k < |yielded| ==> yielded[k] == deltas.items[k].GetOr(""))
        && (deltas.raises ==> buffer == Pushed(old(buffer), user) && shortTermAdds == old(shortTermAdds) + [[user]])
        && (!deltas.raises ==>
              var reply := Entry("assistant", Concat(yielded));
              buffer == Pushed(Pushed(old(buffer), user), reply) && shortTermAdds == old(shortTermAdds) + [[user], [reply]])
    {
      Append(Entry("user", prompt));
      shortTermAdds := shortTermAdds + [[Entry("user", prompt)]];
      var relevantShort := Fmt(shortHits);
      var relevantLong := Fmt(longHits);
      var relevantInsights := Fmt(insightHits);
      var sections := [systemPromptTemplate];
      if relevantInsights != "" {
        sections := sections + [InsightsHeading + relevantInsights];
      }
      if relevantLong != "" {
        sections := sections + [LongTermHeading + relevantLong];
      }
      if relevantShort != "" {
        sections := sections + [ShortTermHeading + relevantShort];
      }
      assert sections == SystemSections(systemPromptTemplate, relevantInsights, relevantLong, relevantShort);
      context := [Entry("system", Join("\n\n", sections))] + buffer;
      var assistantReply := "";
      yielded := [];
      for k := 0 to |deltas.items|
        invariant buffer == Pushed(old(buffer), Entry("user", prompt))
        invariant shortTermAdds == old(shortTermAdds) + [[Entry("user", prompt)]]
        invariant |yielded| == k
        invariant forall j :: 0 <= j < k ==> yielded[j] == deltas.items[j].GetOr("")
        invariant assistantReply == Concat(yielded)
      {
        var delta := deltas.items[k].GetOr("");
        ConcatAppend(yielded, delta);
        assistantReply := assistantReply + delta;
        yielded := yielded + [delta];
      }
      if deltas.raises {
        return;
      }
      Append(Entry("assistant", assistantReply));
      shortTermAdds := shortTermAdds + [[Entry("assistant", assistantReply)]];
    }

    /**
     * `chat`: an input without texts raises `ValueError` and touches
     * nothing; otherwise only the first text is the prompt.
     */
    method Chat(texts: seq<string>, shortHits: seq<string>, longHits: seq<string>, insightHits: seq<string>,
                deltas: Stream<Option<string>>)
      returns (r: Result<seq<string>>)
      requires Valid()
      modifies this`buffer, this`shortTermAdds
      ensures Valid()
      ensures texts == [] ==> r == Raised("ValueError") && buffer == old(buffer) && shortTermAdds == old(shortTermAdds)
      ensures texts != [] ==> var user := Entry("user", texts[0]);
        && r.Ok? && |r.value| == |deltas.items|
        && (forall k :: 0 <= k < |r.value| ==> r.value[k] == deltas.items[k].GetOr(""))
        && (deltas.raises ==> buffer == Pushed(old(buffer), user) && shortTermAdds == old(shortTermAdds) + [[user]])
        && (!deltas.raises ==>
              var reply := Entry("assistant", Concat(r.value));
              buffer == Pushed(Pushed(old(buffer), user), reply) && shortTermAdds == old(shortTermAdds) + [[user], [reply]])
    {
      if texts == [] {
        return Raised("ValueError");
      }
      var context, yielded := ChatIter(texts[0], shortHits, longHits, insightHits, deltas);
      r := Ok(yielded);
    }

    /**
     * `_recompute_insights`: nothing happens without long-term memories;
     * otherwise every cluster of 20 is summarised and the insight layer is
     * cleared and refilled with the summaries that succeeded.
     */
    method RecomputeInsights(allMemories: seq<string>, summarize: string -> Option<string>)
      modifies this`insights
      ensures allMemories == [] ==> insights == old(insights)
      ensures allMemories != [] ==> insights == Summaries(Chunks(allMemories, ChunkSize), summarize)
    {
      if allMemories == [] {
        return;
      }
      var clusters := Chunks(allMemories, ChunkSize);
      var newInsights: seq<string> := [];
      var rest := clusters;
      while rest != []
        invariant Summaries(clusters, summarize) == newInsights + Summaries(rest, summarize)
        decreases |rest|
      {
        var resp := summarize(SummaryPrompt(rest[0]));
        ghost var head: seq<string> := if resp.Some? then [Strip(resp.value)] else [];
        assert Summaries(rest, summarize) == head + Summaries(rest[1..], summarize);
        assert newInsights + (head + Summaries(rest[1..], summarize)) == (newInsights + head) + Summaries(rest[1..], summarize);
        if resp.Some? {
          newInsights := newInsights + [Strip(resp.value)];
        }
        rest := rest[1..];
      }
      insights := [];
      insights := insights + newInsights;
    }
  }

  /**
   * At most one insight per cluster of 20 memories, that is at most
   * `ceil(n / 20)` for `n` memories, and exactly that many when every
   * summary succeeds.
   */
  lemma InsightCount(allMemories: seq<string>, summarize: string -> Option<string>)
    requires allMemories != []
    ensures var clusters := Chunks(allMemories, ChunkSize);
      && |Summaries(clusters, summarize)| <= (|allMemories| + ChunkSize - 1) / ChunkSize
      && ((forall k :: 0 <= k < |clusters| ==> summarize(SummaryPrompt(clusters[k])).Some?) ==>
            |Summaries(clusters, summarize)| == (|allMemories| + ChunkSize - 1) / ChunkSize)
  {
    var clusters := Chunks(allMemories, ChunkSize);
    ChunkCount(allMemories, ChunkSize);
    CeilDiv(|allMemories|, |clusters|);
    if forall k :: 0 <= k < |clusters| ==> summarize(SummaryPrompt(clusters[k])).Some? {
      AllSummariesSucceed(clusters, summarize);
    }
  }

  lemma CeilDiv(n: nat, m: nat)
    requires (m - 1) * ChunkSize < n <= m * ChunkSize
    ensures (n + ChunkSize - 1) / ChunkSize == m
  {
  }
}
