/**
 * The prompt logic of `AdvancedMemoryAgent`
 * (src/open_llm_vtuber/agent/agents/advanced_memory_agent.py): which
 * long-term memories count as user insights and which as saved facts, when
 * the insights are regenerated, how the system prompt is assembled from its
 * sections, and how the message list and the short-term memory are updated
 * for each turn.
 *
 * The mem0 store is reduced to its results, given as input sequences of
 * memory records, and to the list of `add` calls the agent makes. The LLM's
 * replies are input token streams; `json.loads` of the insight reply is a
 * parameter.
 */
module AdvancedMemoryAgent {
  import opened Common
  import opened Text
  import opened Seqs

  const InsightTag: string := "[USER_INSIGHT]"
  const InsightMarker: string := "[USER_INSIGHT] "
  const FactTag: string := "[SAVED_FACT]"
  const FactMarker: string := "[SAVED_FACT] "

  /** How many conversations pass between two regenerations of the insights. */
  const InsightPeriod: nat := 20
  /** The fewest memories from which insights are generated. */
  const MinMemories: nat := 5
  /** How many of the most recent memories the insight prompt is built from. */
  const RecentWindow: nat := 40

  // ---------------------------------------------------------------------
  // Memory records and messages
  // ---------------------------------------------------------------------

  /**
   * One mem0 result: its `memory` text, its `metadata.type`, its `text`
   * key, and how the whole record prints.
   */
  datatype MemoryRecord = MemoryRecord(memory: Option<string>, metadataType: Option<string>, text: Option<string>, repr: string)

  /** `mem.get('memory', '')`. */
  function MemText(m: MemoryRecord): string {
    m.memory.GetOr("")
  }

  predicate IsInsight(m: MemoryRecord) {
    StartsWith(MemText(m), InsightTag)
  }

  datatype Part = TextPart(text: string) | ImagePart(url: string, detail: string)

  /** A message's content: a plain string, or a list of parts. */
  datatype Content = Plain(text: string) | Parts(parts: seq<Part>)

  datatype Message = Message(role: string, content: Content)

  /** What one `mem0.add` call stores. */
  datatype Added = AddText(text: string) | AddMessages(messages: seq<Message>)

  function HistoryMessages(history: seq<HistoryEntry>): (r: seq<Message>)
    ensures |r| == |history|
    ensures forall k :: 0 <= k < |r| ==> r[k] == Message(MapRole(history[k].role), Plain(history[k].content))
  {
    seq(|history|, k requires 0 <= k < |history| => Message(MapRole(history[k].role), Plain(history[k].content)))
  }

  // ---------------------------------------------------------------------
  // Insights and saved facts
  // ---------------------------------------------------------------------

  /** The insights recorded in a list of memories: every insight-tagged text, with its markers removed. */
  function InsightsFrom(results: seq<MemoryRecord>): seq<string> {
    if results == [] then []
    else
      (if IsInsight(results[0]) then [Replace(MemText(results[0]), InsightMarker, "")] else [])
      + InsightsFrom(results[1..])
  }

  /** The saved facts in a list of memories, as they are printed: insights never count. */
  function SavedFacts(results: seq<MemoryRecord>): seq<string> {
    if results == [] then [] else FactOf(results[0]) + SavedFacts(results[1..])
  }

  /** What one memory contributes to the saved facts: nothing, or its fact text. */
  function FactOf(m: MemoryRecord): seq<string> {
    var t := MemText(m);
    if IsInsight(m) then []
    else if StartsWith(t, FactTag) then [Replace(t, FactMarker, "")]
    else if m.metadataType == Some("saved_fact") then [if m.text.Some? then m.text.value else m.repr]
    else []
  }

  /** The memory `_save_user_insights` stores for each insight. */
  function SavedInsight(insight: string): MemoryRecord {
    MemoryRecord(Some(InsightMarker + insight), None, None, "")
  }

  lemma {:induction false} InsightsFromAppend(a: seq<MemoryRecord>, b: seq<MemoryRecord>)
    ensures InsightsFrom(a + b) == InsightsFrom(a) + InsightsFrom(b)
    decreases |a|
  {
    if a == [] {
      assert a + b == b;
    } else {
      assert (a + b)[1..] == a[1..] + b;
      InsightsFromAppend(a[1..], b);
    }
  }

  /**
   * Saving the insights and loading them back gives the same insights,
   * in order, as long as none contains the marker itself.
   */
  lemma {:induction false} InsightsRoundTrip(insights: seq<string>)
    requires forall k :: 0 <= k < |insights| ==> !Contains(insights[k], InsightMarker)
    ensures InsightsFrom(seq(|insights|, k requires 0 <= k < |insights| => SavedInsight(insights[k]))) == insights
    decreases |insights|
  {
    var stored := seq(|insights|, k requires 0 <= k < |insights| => SavedInsight(insights[k]));
    if insights != [] {
      var rest := insights[1..];
      var storedRest := seq(|rest|, k requires 0 <= k < |rest| => SavedInsight(rest[k]));
      assert stored[1..] == storedRest;
      InsightsRoundTrip(rest);
      var t := InsightMarker + insights[0];
      assert MemText(stored[0]) == t;
      assert StartsWith(t, InsightTag) by {
        assert t[..|InsightTag|] == InsightMarker[..|InsightTag|];
      }
      ReplaceMarkerPrefix(InsightMarker, insights[0]);
    }
  }

  lemma {:induction false} SavedFactsAppend(a: seq<MemoryRecord>, b: seq<MemoryRecord>)
    ensures SavedFacts(a + b) == SavedFacts(a) + SavedFacts(b)
    decreases |a|
  {
    if a == [] {
      assert a + b == b;
    } else {
      assert (a + b)[0] == a[0] && (a + b)[1..] == a[1..] + b;
      SavedFactsAppend(a[1..], b);
    }
  }

  /** The memories `_save_user_insights` stores hold no saved fact. */
  lemma {:induction false} StoredInsightsHoldNoFacts(insights: seq<string>)
    ensures SavedFacts(seq(|insights|, k requires 0 <= k < |insights| => SavedInsight(insights[k]))) == []
    decreases |insights|
  {
    var stored := seq(|insights|, k requires 0 <= k < |insights| => SavedInsight(insights[k]));
    if insights != [] {
      var rest := insights[1..];
      assert stored[1..] == seq(|rest|, k requires 0 <= k < |rest| => SavedInsight(rest[k]));
      StoredInsightsHoldNoFacts(rest);
      var t := InsightMarker + insights[0];
      assert MemText(stored[0]) == t;
      assert StartsWith(t, InsightTag) by {
        assert t[..|InsightTag|] == InsightMarker[..|InsightTag|];
      }
    }
  }

  /**
   * The saved facts are the same before and after the insights of this
   * turn are stored, so the `get_all` made for the facts sees the same
   * facts as the one made for the insights.
   */
  lemma SavedFactsIgnoreNewInsights(all: seq<MemoryRecord>, insights: seq<string>)
    ensures SavedFacts(all + seq(|insights|, k requires 0 <= k < |insights| => SavedInsight(insights[k]))) == SavedFacts(all)
  {
    var stored := seq(|insights|, k requires 0 <= k < |insights| => SavedInsight(insights[k]));
    SavedFactsAppend(all, stored);
    StoredInsightsHoldNoFacts(insights);
    assert SavedFacts(all) + [] == SavedFacts(all);
  }

  /** No memory is both an insight and a saved fact. */
  lemma InsightsAreNotFacts(m: MemoryRecord)
    ensures InsightsFrom([m]) == [] || SavedFacts([m]) == []
    ensures IsInsight(m) ==> SavedFacts([m]) == [] && |InsightsFrom([m])| == 1
  {
    assert [m][1..] == [];
  }

  /** `full[full.find("[") : full.rfind("]") + 1]`. */
  function JsonSlice(full: string): string {
    PySlice(full, Find(full, "["), RFind(full, "]") + 1)
  }

  /**
   * When the reply has a `[` with a `]` at or after it, the slice runs
   * from the first `[` to the last `]`, both included.
   */
  lemma JsonSliceBounds(full: string)
    requires 0 <= Find(full, "[") <= RFind(full, "]")
    ensures var i, j := Find(full, "["), RFind(full, "]");
      JsonSlice(full) == full[i..j + 1] && JsonSlice(full)[0] == '[' && JsonSlice(full)[j - i] == ']'
  {
    var i, j := Find(full, "["), RFind(full, "]");
    assert StartsWith(full[j..], "]");
    assert StartsWith(full[i..], "[");
    assert j < |full|;
    assert PySlice(full, i, j + 1) == full[i..j + 1];
    assert full[i..j + 1][j - i] == full[j];
  }

  /** A reply without any bracket gives the empty slice, which is not JSON. */
  lemma JsonSliceWithoutBrackets(full: string)
    requires !Contains(full, "[") && !Contains(full, "]")
    ensures JsonSlice(full) == ""
  {
    assert Find(full, "[") == -1 && RFind(full, "]") == -1;
    assert PySlice(full, -1, 0) == "";
  }

  /** The generated insight item, as `json.loads` returns it. */
  datatype InsightItem = InsightItem(insight: string, confidence: string)

  function FormatInsight(item: InsightItem): string {
    "- " + item.insight + " (Confidence: " + item.confidence + ")"
  }

  /**
   * The prompt text built from the recent memories: the last 40, without
   * the insights, one per line.
   */
  function HistoryText(results: seq<MemoryRecord>): string {
    Join("\n", RecentTexts(LastN(results, RecentWindow)))
  }

  function RecentTexts(results: seq<MemoryRecord>): (r: seq<string>)
    ensures |r| <= |results|
    ensures forall k :: 0 <= k < |r| ==> !StartsWith(r[k], InsightTag)
  {
    if results == [] then []
    else (if IsInsight(results[0]) then [] else [MemText(results[0])]) + RecentTexts(results[1..])
  }

  /** Only the last 40 memories are read: anything older never reaches the insight prompt. */
  lemma HistoryTextIgnoresOlder(older: seq<MemoryRecord>, recent: seq<MemoryRecord>)
    requires |recent| >= RecentWindow
    ensures HistoryText(older + recent) == HistoryText(recent)
  {
    var s := older + recent;
    assert s[|s| - RecentWindow..] == recent[|recent| - RecentWindow..];
  }

  // ---------------------------------------------------------------------
  // The system prompt
  // ---------------------------------------------------------------------

  const InsightsHeader: string := "\n\n# User Insights\n"
  const FactsHeader: string := "\n\n# Saved Memories\nThese are facts the user has explicitly asked you to remember:\n"
  const HistoryHeader: string := "\n\n# Relevant Conversation History\nHere are relevant snippets from past conversations:\n"

  function Bullets(items: seq<string>): (r: seq<string>)
    ensures |r| == |items| && forall k :: 0 <= k < |r| ==> r[k] == "- " + items[k]
  {
    seq(|items|, k requires 0 <= k < |items| => "- " + items[k])
  }

  /** The parts of the system prompt: the base, then each section that has something in it. */
  function PromptParts(system: string, insights: seq<string>, facts: seq<string>, relevant: seq<MemoryRecord>): seq<string> {
    [system]
    + (if insights != [] then [InsightsHeader + Join("\n", insights)] else [])
    + (if facts != [] then [FactsHeader + Join("\n", Bullets(facts))] else [])
    + (if relevant != [] then [HistoryHeader + Join("\n", Bullets(seq(|relevant|, k requires 0 <= k < |relevant| => MemText(relevant[k]))))] else [])
  }

  function SystemPrompt(system: string, insights: seq<string>, facts: seq<string>, relevant: seq<MemoryRecord>): string {
    Join("\n", PromptParts(system, insights, facts, relevant))
  }

  /**
   * The prompt always begins with the base prompt, is exactly the base
   * when there is nothing to add, and the sections follow in the order
   * insights, saved facts, relevant history, each present only when
   * non-empty.
   */
  lemma SystemPromptShape(system: string, insights: seq<string>, facts: seq<string>, relevant: seq<MemoryRecord>)
    ensures StartsWith(SystemPrompt(system, insights, facts, relevant), system)
    ensures insights == [] && facts == [] && relevant == [] ==> SystemPrompt(system, insights, facts, relevant) == system
    ensures var p := PromptParts(system, insights, facts, relevant);
      && p[0] == system
      && |p| == 1 + (if insights != [] then 1 else 0) + (if facts != [] then 1 else 0) + (if relevant != [] then 1 else 0)
      && (insights != [] ==> p[1] == InsightsHeader + Join("\n", insights))
      && (facts != [] ==> p[if insights != [] then 2 else 1] == FactsHeader + Join("\n", Bullets(facts)))
  {
    JoinStartsWith("\n", PromptParts(system, insights, facts, relevant));
  }

  /** Only the insights' own section mentions them: adding insights appends one line break and the section. */
  lemma InsightsSection(system: string, insights: seq<string>)
    requires insights != []
    ensures SystemPrompt(system, insights, [], []) == system + "\n" + (InsightsHeader + Join("\n", insights))
  {
    var p := PromptParts(system, insights, [], []);
    var section := InsightsHeader + Join("\n", insights);
    assert p == [system, section];
    assert p[1..] == [section];
    assert Join("\n", [section]) == section;
  }

  /**
   * `_to_message_content`: the plain text without images; otherwise a text
   * part, then one `image_url` part per image, in order, each with
   * detail `"auto"`.
   */
  function ToMessageContent(prompt: string, images: seq<string>): (c: Content)
    ensures images == [] <==> c.Plain?
    ensures c.Plain? ==> c.text == prompt
    ensures c.Parts? ==>
              |c.parts| == |images| + 1 && c.parts[0] == TextPart(prompt)
              && forall k :: 0 <= k < |images| ==> c.parts[k + 1] == ImagePart(images[k], "auto")
  {
    if images == [] then Plain(prompt)
    else Parts([TextPart(prompt)] + seq(|images|, k requires 0 <= k < |images| => ImagePart(images[k], "auto")))
  }

  /** What the turn's message list and memory begin with: the enhanced system message in front of the old memory. */
  function WithSystem(memory: seq<Message>, prompt: string): (r: seq<Message>)
    ensures |r| == if memory != [] && memory[0].role == "system" then |memory| else |memory| + 1
    ensures r[0] == Message("system", Plain(prompt))
    ensures forall k :: 1 <= k < |r| ==> r[k] == (if memory != [] && memory[0].role == "system" then memory[k] else memory[k - 1])
  {
    if memory != [] && memory[0].role == "system" then [Message("system", Plain(prompt))] + memory[1..]
    else [Message("system", Plain(prompt))] + memory
  }

  /** The `add` calls that store the insights, one tagged text per insight, in order. */
  function SavedRecords(insights: seq<string>): (r: seq<Added>)
    ensures |r| == |insights|
    ensures forall k :: 0 <= k < |r| ==> r[k] == AddText(InsightMarker + insights[k])
  {
    seq(|insights|, k requires 0 <= k < |insights| => AddText(InsightMarker + insights[k]))
  }

  /** The text stored in mem0 after a completed turn. */
  function TurnRecord(prompt: string, response: string): string {
    "User: " + prompt + "\nAssistant: " + response
  }

  /** The item-by-item loops of the source, used by the agent below. */
  method CollectInsights(results: seq<MemoryRecord>) returns (saved: seq<string>)
    ensures saved == InsightsFrom(results)
  {
    saved := [];
    for k := 0 to |results|
      invariant saved == InsightsFrom(results[..k])
    {
      assert results[..k + 1] == results[..k] + [results[k]];
      InsightsFromAppend(results[..k], [results[k]]);
      assert [results[k]][1..] == [];
      var memoryText := MemText(results[k]);
      if StartsWith(memoryText, InsightTag) {
        saved := saved + [Replace(memoryText, InsightMarker, "")];
      }
    }
    assert results[..|results|] == results;
  }

  method CollectSavedFacts(results: seq<MemoryRecord>) returns (facts: seq<string>)
    ensures facts == SavedFacts(results)
  {
    facts := [];
    var rest := results;
    while rest != []
      invariant SavedFacts(results) == facts + SavedFacts(rest)
      decreases |rest|
    {
      var found := MemoryFact(rest[0]);
      assert facts + SavedFacts(rest) == (facts + found) + SavedFacts(rest[1..]);
      facts := facts + found;
      rest := rest[1..];
    }
  }

  /** The body of that loop for one memory: insights are skipped, then the tag is tried before the metadata. */
  method MemoryFact(m: MemoryRecord) returns (found: seq<string>)
    ensures found == FactOf(m)
  {
    var memoryText := MemText(m);
    found := [];
    if !StartsWith(memoryText, InsightTag) {
      if StartsWith(memoryText, FactTag) {
        found := [Replace(memoryText, FactMarker, "")];
      } else if m.metadataType == Some("saved_fact") {
        found := [if m.text.Some? then m.text.value else m.repr];
      }
    }
  }

  /** What one `_update_user_insights` call leaves: the insights, and the `add` calls it made. */
  datatype InsightOutcome = InsightOutcome(insights: seq<string>, saved: seq<Added>)

  /**
   * `_update_user_insights` as a function of the agent's state before it
   * and of what mem0 and the LLM give back.
   */
  function InsightUpdate(hasMem0: bool, count: nat, current: seq<string>, results: seq<MemoryRecord>,
                         reply: Stream<string>, loads: string -> Option<seq<InsightItem>>): InsightOutcome
  {
    if !hasMem0 || count % InsightPeriod != 0 then InsightOutcome(current, [])
    else if |results| < MinMemories then InsightOutcome([], [])
    else if AllSpace(HistoryText(results)) then InsightOutcome(current, [])
    else if reply.raises || loads(JsonSlice(Concat(reply.items))).None? then InsightOutcome([], [])
    else
      var items := loads(JsonSlice(Concat(reply.items))).value;
      var insights := seq(|items|, k requires 0 <= k < |items| => FormatInsight(items[k]));
      InsightOutcome(insights, SavedRecords(insights))
  }

  /**
   * What any `_update_user_insights` call can leave, whatever mem0 and the
   * LLM answer: off the 20-conversation schedule, or without mem0, nothing
   * changes; the insights are kept, cleared, or exactly the formatted
   * items the reply parsed to; whatever is saved is exactly the new
   * insights, and only a regeneration from at least 5 memories and a
   * reply that completed saves anything.
   */
  lemma InsightUpdateShape(hasMem0: bool, count: nat, current: seq<string>, results: seq<MemoryRecord>,
                           reply: Stream<string>, loads: string -> Option<seq<InsightItem>>)
    ensures var u := InsightUpdate(hasMem0, count, current, results, reply, loads);
      && (u.insights != current || u.saved != [] ==> hasMem0 && count % InsightPeriod == 0)
      && (u.saved == [] || u.saved == SavedRecords(u.insights))
      && (u.saved != [] ==> |results| >= MinMemories && !reply.raises && !AllSpace(HistoryText(results)))
      && (u.insights == current || u.insights == [] ||
            var parsed := loads(JsonSlice(Concat(reply.items)));
            && parsed.Some? && |u.insights| == |parsed.value|
            && forall k :: 0 <= k < |parsed.value| ==> u.insights[k] == FormatInsight(parsed.value[k]))
      && (reply.raises ==> u.saved == [] && (u.insights == current || u.insights == []))
  {
  }

  /** The memory after the prompt is built: a leading system message overwritten, then the user's message. */
  function Prompted(memory: seq<Message>, enhanced: string, user: Message): seq<Message> {
    (if memory != [] && memory[0].role == "system" then WithSystem(memory, enhanced) else memory) + [user]
  }

  /**
   * `AdvancedMemoryAgent`: the short-term memory `_memory`, the insights,
   * the conversation counter, and the `add` calls made to mem0 (when mem0
   * could be initialised).
   */
  class AdvancedMemoryAgent {
    const system: string
    const hasMem0: bool
    var memory: seq<Message>
    var userInsights: seq<string>
    var conversationCount: nat
    var added: seq<Added>

    /**
     * The state lines 39-89 of `__init__` give, before its closing
     * `_load_user_insights` call (which is `LoadUserInsights`). `_system`
     * and the initial `_memory` are set by the parent constructor, so
     * `system` is the prompt the parent keeps and `initialMemory` whatever
     * memory it starts with.
     */
    constructor (system: string, hasMem0: bool, initialMemory: seq<Message>)
      ensures this.system == system && this.hasMem0 == hasMem0
      ensures memory == initialMemory && userInsights == [] && conversationCount == 0 && added == []
    {
      this.system := system;
      this.hasMem0 := hasMem0;
      memory := initialMemory;
      userInsights := [];
      conversationCount := 0;
      added := [];
    }

    /** `_load_user_insights`: the insights found replace the current ones, unless there are none. */
    method LoadUserInsights(results: seq<MemoryRecord>)
      modifies this`userInsights
      ensures userInsights == if hasMem0 && InsightsFrom(results) != [] then InsightsFrom(results) else old(userInsights)
    {
      if !hasMem0 {
        return;
      }
      var saved := CollectInsights(results);
      if saved != [] {
        userInsights := saved;
      }
    }

    /** `_save_user_insights`: one tagged memory per insight, in order. */
    method SaveUserInsights()
      modifies this`added
      ensures added == old(added) + (if hasMem0 then SavedRecords(userInsights) else [])
    {
      if !hasMem0 || userInsights == [] {
        return;
      }
      for k := 0 to |userInsights|
        invariant added == old(added) + SavedRecords(userInsights[..k])
      {
        added := added + [AddText(InsightMarker + userInsights[k])];
      }
      assert userInsights[..|userInsights|] == userInsights;
    }

    /**
     * `set_memory_from_history` with mem0: the memory becomes the system
     * message and then the history, with roles mapped; the same messages
     * are added to mem0 in one call when there are any.
     */
    method SetMemoryFromHistory(history: seq<HistoryEntry>)
      modifies this`memory, this`added
      ensures hasMem0 ==> memory == [Message("system", Plain(system))] + HistoryMessages(history)
      ensures hasMem0 ==> added == old(added) + (if history == [] then [] else [AddMessages(HistoryMessages(history))])
    {
      if !hasMem0 {
        return;
      }
      memory := [Message("system", Plain(system))];
      var toAdd: seq<Message> := [];
      for k := 0 to |history|
        invariant toAdd == HistoryMessages(history[..k])
        invariant memory == [Message("system", Plain(system))] + toAdd
        invariant added == old(added)
      {
        var role := if history[k].role == "human" then "user" else "assistant";
        memory := memory + [Message(role, Plain(history[k].content))];
        toAdd := toAdd + [Message(role, Plain(history[k].content))];
      }
      assert history[..|history|] == history;
      assert |toAdd| == |history|;
      if toAdd != [] {
        added := added + [AddMessages(toAdd)];
      }
    }

    /**
     * `_update_user_insights`: only with mem0 and at a multiple of 20
     * conversations; fewer than 5 memories clear the insights; a blank
     * history text leaves them as they are; otherwise the reply's JSON
     * slice gives the new, formatted insights, which are saved, and any
     * failure on the way clears them.
     */
    method UpdateUserInsights(results: seq<MemoryRecord>, reply: Stream<string>, loads: string -> Option<seq<InsightItem>>)
      modifies this`userInsights, this`added
      ensures var u := InsightUpdate(hasMem0, conversationCount, old(userInsights), results, reply, loads);
        userInsights == u.insights && added == old(added) + u.saved
    {
      if !hasMem0 {
        return;
      }
      if conversationCount % InsightPeriod != 0 {
        return;
      }
      if |results| < MinMemories {
        userInsights := [];
        return;
      }
      var historyText := HistoryText(results);
      StripBlank(historyText);
      if Strip(historyText) == "" {
        return;
      }
      if reply.raises {
        userInsights := [];
        return;
      }
      var fullResponse := Concat(reply.items);
      var jsonStr := JsonSlice(fullResponse);
      var parsed := loads(jsonStr);
      if parsed.None? {
        userInsights := [];
        return;
      }
      var items := parsed.value;
      userInsights := seq(|items|, k requires 0 <= k < |items| => FormatInsight(items[k]));
      SaveUserInsights();
    }

    /**
     * `_construct_messages_with_advanced_memory`: with mem0, the insights
     * are brought up to date first and the saved facts and relevant
     * memories go into the prompt. The list is a shallow copy of the
     * memory, so overwriting its system message overwrites the memory's
     * too; the user's message is appended to both.
     */
    method ConstructMessages(prompt: string, images: seq<string>, relevant: seq<MemoryRecord>, all: seq<MemoryRecord>,
                             insightReply: Stream<string>, loads: string -> Option<seq<InsightItem>>)
      returns (messages: seq<Message>)
      modifies this`memory, this`userInsights, this`added
      ensures var u := InsightUpdate(hasMem0, conversationCount, old(userInsights), all, insightReply, loads);
        userInsights == u.insights && added == old(added) + u.saved
      ensures var enhanced := SystemPrompt(system, userInsights, if hasMem0 then SavedFacts(all) else [], if hasMem0 then relevant else []);
        var user := Message("user", ToMessageContent(prompt, images));
        && messages == WithSystem(old(memory), enhanced) + [user]
        && memory == Prompted(old(memory), enhanced, user)
      ensures !hasMem0 ==> userInsights == old(userInsights) && added == old(added)
    {
      var facts: seq<string> := [];
      var found: seq<MemoryRecord> := [];
      if hasMem0 {
        UpdateUserInsights(all, insightReply, loads);
        found := relevant;
        facts := CollectSavedFacts(all);
      }
      var enhanced := SystemPrompt(system, userInsights, facts, found);
      messages := memory;
      if messages != [] && messages[0].role == "system" {
        messages := messages[0 := Message("system", Plain(enhanced))];
        memory := memory[0 := Message("system", Plain(enhanced))];
      } else {
        messages := [Message("system", Plain(enhanced))] + messages;
      }
      var content := ToMessageContent(prompt, images);
      messages := messages + [Message("user", content)];
      memory := memory + [Message("user", content)];
    }

    /**
     * `chat_with_advanced_memory`: the tokens are passed on as they come;
     * only a reply that completes is stored (in mem0 and in the memory)
     * and counts as a conversation, exactly one.
     */
    method Chat(prompt: string, images: seq<string>, relevant: seq<MemoryRecord>, all: seq<MemoryRecord>,
                insightReply: Stream<string>, loads: string -> Option<seq<InsightItem>>, reply: Stream<string>)
      returns (yielded: seq<string>)
      modifies this`memory, this`userInsights, this`added, this`conversationCount
      ensures yielded == reply.items
      ensures conversationCount == old(conversationCount) + (if reply.raises then 0 else 1)
      ensures var u := InsightUpdate(hasMem0, old(conversationCount), old(userInsights), all, insightReply, loads);
        && userInsights == u.insights
        && added == old(added) + u.saved
                    + (if !reply.raises && hasMem0 then [AddText(TurnRecord(prompt, Concat(reply.items)))] else [])
      ensures var enhanced := SystemPrompt(system, userInsights, if hasMem0 then SavedFacts(all) else [], if hasMem0 then relevant else []);
        var user := Message("user", ToMessageContent(prompt, images));
        memory == Prompted(old(memory), enhanced, user)
                  + (if reply.raises then [] else [Message("assistant", Plain(Concat(reply.items)))])
    {
      var messages := ConstructMessages(prompt, images, relevant, all, insightReply, loads);
      ghost var after := memory;
      ghost var addedAfter := added;
      ghost var insightsAfter := userInsights;
      var completeResponse := "";
      yielded := [];
      for k := 0 to |reply.items|
        invariant yielded == reply.items[..k]
        invariant completeResponse == Concat(reply.items[..k])
        invariant conversationCount == old(conversationCount)
        invariant memory == after && added == addedAfter && userInsights == insightsAfter
      {
        assert reply.items[..k + 1] == reply.items[..k] + [reply.items[k]];
        ConcatAppend(reply.items[..k], reply.items[k]);
        yielded := yielded + [reply.items[k]];
        completeResponse := completeResponse + reply.items[k];
      }
      assert reply.items[..|reply.items|] == reply.items;
      if reply.raises {
        return;
      }
      if hasMem0 {
        added := added + [AddText(TurnRecord(prompt, completeResponse))];
      }
      memory := memory + [Message("assistant", Plain(completeResponse))];
      conversationCount := conversationCount + 1;
    }
  }

  /** `text.strip()` is empty exactly when the text is all whitespace. */
  lemma StripBlank(s: string)
    ensures Strip(s) == "" <==> AllSpace(s)
  {
    var lead, trail := StripSplits(s);
    if AllSpace(s) && Strip(s) != "" {
      assert s == lead + Strip(s) + trail;
      assert s[|lead|] == Strip(s)[0];
      LStripDropsLeadingSpace(s);
      RStripDropsTrailingSpace(LStrip(s));
      StripFirstNotSpace(s);
    }
  }

  /** A non-empty `strip()` result begins with a non-space character. */
  lemma StripFirstNotSpace(s: string)
    requires Strip(s) != ""
    ensures !IsSpace(Strip(s)[0])
  {
    var l := LStrip(s);
    LStripDropsLeadingSpace(s);
    RStripDropsTrailingSpace(l);
    assert Strip(s) == l[..|Strip(s)|];
  }

  /**
   * The conversation counter after a run of turns, each of which adds one
   * exactly when its reply completes (as `Chat` ensures).
   */
  function CounterAfter(start: nat, completes: seq<bool>): nat
    decreases |completes|
  {
    if completes == [] then start else CounterAfter(start + (if completes[0] then 1 else 0), completes[1..])
  }

  /** A turn appended to a run moves the counter by one exactly when it completes. */
  lemma {:induction false} CounterAfterAppend(start: nat, completes: seq<bool>, last: bool)
    ensures CounterAfter(start, completes + [last]) == CounterAfter(start, completes) + (if last then 1 else 0)
    decreases |completes|
  {
    if completes != [] {
      assert (completes + [last])[1..] == completes[1..] + [last];
      CounterAfterAppend(start + (if completes[0] then 1 else 0), completes[1..], last);
    } else {
      assert [last][1..] == [];
    }
  }

  /** When every reply completes, the counter before turn `t` of a fresh agent is `t`. */
  lemma {:induction false} CounterAllComplete(completes: seq<bool>, t: nat)
    requires t <= |completes| && forall k :: 0 <= k < |completes| ==> completes[k]
    ensures CounterAfter(0, completes[..t]) == t
    decreases t
  {
    if t > 0 {
      CounterAllComplete(completes, t - 1);
      assert completes[..t] == completes[..t - 1] + [completes[t - 1]];
      CounterAfterAppend(0, completes[..t - 1], completes[t - 1]);
    } else {
      assert completes[..0] == [];
    }
  }

  /**
   * The insight schedule of a fresh agent whose replies all complete: the
   * counter starts at 0, so the first turn runs the update, and after it
   * every twentieth; at any other turn the update keeps the insights and
   * adds nothing, whatever mem0 and the LLM would have said.
   */
  lemma RegenerationTurns(completes: seq<bool>, t: nat, hasMem0: bool, current: seq<string>, results: seq<MemoryRecord>,
                          reply: Stream<string>, loads: string -> Option<seq<InsightItem>>)
    requires t <= |completes| && forall k :: 0 <= k < |completes| ==> completes[k]
    ensures t % InsightPeriod != 0 ==>
      InsightUpdate(hasMem0, CounterAfter(0, completes[..t]), current, results, reply, loads) == InsightOutcome(current, [])
    ensures t % InsightPeriod == 0 ==>
      InsightUpdate(hasMem0, CounterAfter(0, completes[..t]), current, results, reply, loads)
        == InsightUpdate(hasMem0, 0, current, results, reply, loads)
  {
    CounterAllComplete(completes, t);
  }
}
