# neuro-forge: proactive chat, chat-bot bridges and memory agents in Dafny

This project models the core of neuro-forge, a fork of Open-LLM-VTuber, and
proves properties of the model. The core has four parts:

- **The proactive notification engine.** Event sources produce timer ticks,
  feed entries and queued messages. The manager feeds each event through an
  `enabled` gate, a decision policy (a keyword rule, or a streamed YES/NO
  answer from an LLM), a message composer and one call of the broadcast sink.
- **The WebSocket client the chat bots use.** It covers dispatch of server
  messages to the `on_*` callbacks, the outbound frames, and the "connected"
  guard in front of every send.
- **The Discord bridge.** It keeps one client per channel, rewrites mentions
  and routes attachments. It also splits answers at Discord's
  2000-character limit.
- **Two memory-augmented agents.**
  - `AdvancedMemoryAgent` sorts mem0 memories into insights and saved facts,
    regenerates insights every 20 conversations, and assembles a sectioned
    system prompt.
  - `AdvancedMem0LLMAgent` keeps a 20-message buffer, rewrites it on
    interruption, builds its prompt from three memory layers, and clusters
    long-term memories into insights.

One module per source file:

- `EventSources.dfy`: event_sources.py
- `ProactiveManager.dfy`: proactive_manager.py
- `BaseClient.dfy`: base_client.py
- `DiscordBot.dfy`: discord_bot.py
- `AdvancedMemoryAgent.dfy`: advanced_memory_agent.py
- `Mem0Agent.dfy`: mem0_llm.py

Shared modules:

- `Common.dfy`: `Option`, `Result`, `Stream` and string payloads.
- `Text.dfy`: the Python `str` operations the core relies on:
  - `strip` over the `isspace` set;
  - one-pass, non-overlapping `replace`;
  - `find`/`rfind` and slicing with negative indices;
  - `join`;
  - ASCII `upper`/`lower`.
- `Seqs.dfy`: chunking as in `[s[i:i+n] for i in range(0, len(s), n)]`, and
  `s[-n:]`.

How the model is built:

- Stateful objects are classes whose fields the methods update, for example
  `ProactiveChatManager` with `_enabled`, `_running` and `_tasks`. Each
  method's contract ties the new state to a specification function, and the
  properties are proved about that function.
- Everything the code awaits from outside becomes an input:
  - an LLM reply, a socket or a chat-completion stream is a `Stream` (the
    items delivered, then whether it raised);
  - a broadcast or send that may raise is a flag or a fault index;
  - a mem0 search or `get_all` result is a list of records;
  - `json.loads` and the insight summariser are function parameters.

The repository's test `tests/test_proactive.py:101-139` sends a feed entry
titled "Boring maintenance update" through a stubbed LLM that answers NO, and
expects no notification. That outcome holds only on the LLM path. The rule
strategy accepts the title because it contains the keyword "update"
(`RuleAcceptsAnyUpdate`).

The verifier also shows two outcomes the code cannot reach:

- In `handle_user_message`, `has_audio` is always false once the attachment
  loop finishes, because every audio branch returns.
- The later `if content or images` test is always true after the "Hello!"
  default.

Both show up in `DiscordBot.DiscordVTuberBot.HandleUserMessage` as a loop
invariant and an unreachable end.

## Model

| member | source | states |
|---|---|---|
| EventSources.PyMod | src/open_llm_vtuber/event_sources.py:19 | Python's `%`: the result lies in `[0, b)` for a positive divisor and in `(b, 0]` for a negative one |
| EventSources.Wait | src/open_llm_vtuber/event_sources.py:15-20 | the seconds to the next interval boundary; raises (ZeroDivisionError) exactly when the interval is 0 |
| EventSources.WaitBounds | src/open_llm_vtuber/event_sources.py:17-20 | for a positive interval and a clock second 0..59, the wait is between 1 second and one whole interval, so `wait or 1` is the wait itself |
| EventSources.SleepAtLeastOne | src/open_llm_vtuber/event_sources.py:20 | a non-negative wait never sleeps less than one second |
| EventSources.SleepSeconds | src/open_llm_vtuber/event_sources.py:20 | reference definition of `wait or 1`: the seconds actually slept are the wait, or 1 when the wait is 0 |
| EventSources.TickEvent | src/open_llm_vtuber/event_sources.py:37 | a tick event whose payload holds exactly the key `utc`, with the timestamp |
| EventSources.TimeSource | src/open_llm_vtuber/event_sources.py:24-37 | one tick per boundary reached, in order, each stamped with that boundary's time |
| EventSources.MessageSource | src/open_llm_vtuber/event_sources.py:79-96 | one message event per dequeued item, in order, whose payload is the item unchanged |
| EventSources.RssPayload | src/open_llm_vtuber/event_sources.py:63-71 | the payload has exactly the keys title, link, summary and published, holding the entry's title and link; summary and published default to `''` |
| EventSources.Yieldable | src/open_llm_vtuber/event_sources.py:60-67 | reference definition of an entry the loop can yield: it has an `id` (read at line 60), a `title` (lines 62 and 66) and a `link` (line 67) |
| EventSources.RssEvent | src/open_llm_vtuber/event_sources.py:63-71 | reference definition of the event yielded for one entry: type `"rss"` and the `RssPayload` of the entry |
| EventSources.RssEvents | src/open_llm_vtuber/event_sources.py:59-71 | one `RssEvent` per entry, with the same length and in the same order |
| EventSources.RssEventsConcat | src/open_llm_vtuber/event_sources.py:59-71 | the events of two consecutive runs of entries are the events of the first run followed by those of the second |
| EventSources.PollEntries | src/open_llm_vtuber/event_sources.py:59-71 | every entry yielded has an id, a title and a link |
| EventSources.PollFeed | src/open_llm_vtuber/event_sources.py:57-74 | reference definition of one poll: a `feedparser.parse` that raises yields nothing, leaves `seen` as it was and counts as aborted; a parsed feed goes through `PollEntries` |
| EventSources.PollFresh | src/open_llm_vtuber/event_sources.py:59-61 | within one poll `seen` only grows, and every yielded id was not in `seen` before and is in it afterwards |
| EventSources.PollOrder | src/open_llm_vtuber/event_sources.py:59-71 | within one poll the yielded entries are a subsequence of the feed's entries |
| EventSources.PollDistinct | src/open_llm_vtuber/event_sources.py:59-61 | within one poll no id is yielded twice |
| EventSources.PollComplete | src/open_llm_vtuber/event_sources.py:59-71 | a poll over complete entries (id, title and link all present) is never aborted; a poll that is not aborted adds to `seen` exactly the ids it yields, and leaves the id of every entry in `seen` |
| EventSources.Breaks | src/open_llm_vtuber/event_sources.py:60-67 | reference definition of the entry that ends a poll with an exception, given the ids seen so far: it has no `id`, or its `id` is new and it lacks a `title` or a `link` |
| EventSources.PollAbortsExactly | src/open_llm_vtuber/event_sources.py:59-71 | a poll is aborted if and only if some entry `Breaks` against `seen` plus the ids of the entries before it. So an entry without a title or link whose id was already seen is skipped, not fatal |
| EventSources.PollProperties | src/open_llm_vtuber/event_sources.py:59-71 | within one poll, the yielded entries keep feed order, have ids not seen before, are pairwise distinct, are all in `seen` afterwards, and `seen` only grows; with every entry complete the poll runs to the end, `seen` grows by exactly the yielded ids, and every entry was either seen before or yielded |
| EventSources.SeenEntrySkipped | src/open_llm_vtuber/event_sources.py:60 | an entry whose id was seen before yields nothing and leaves `seen` unchanged |
| EventSources.Lifetime | src/open_llm_vtuber/event_sources.py:54-76 | over a run of polls, every entry yielded has an id, a title and a link |
| EventSources.LifetimeFresh | src/open_llm_vtuber/event_sources.py:52-61 | over a run of polls `seen` only grows, and every yielded id was not in the initial `seen` and is in the final one |
| EventSources.CleanFeed | src/open_llm_vtuber/event_sources.py:57-67 | reference definition of a feed that parsed and all of whose entries are `Yieldable` |
| EventSources.LifetimeComplete | src/open_llm_vtuber/event_sources.py:52-76 | over a run of polls whose feeds parse and whose entries are complete, `seen` grows by exactly the yielded ids, and every entry of every feed was either seen at the start or yielded |
| EventSources.LifetimeYieldsEachIdOnce | src/open_llm_vtuber/event_sources.py:52-76 | over the source's whole life, each entry id is yielded at most once, never one that was seen at the start; a failed poll does not stop later polls |
| EventSources.RssSource.constructor | src/open_llm_vtuber/event_sources.py:40-52 | a feed source starts with an empty `seen` set |
| EventSources.RssSource.Poll | src/open_llm_vtuber/event_sources.py:55-74 | one poll updates `seen` in place and yields exactly the events of `PollFeed`; a parse failure or a missing attribute ends only that poll |
| EventSources.RssSource.Run | src/open_llm_vtuber/event_sources.py:54-76 | the polling loop yields the events of `Lifetime` and leaves its final `seen` |
| ProactiveManager.AnyKeyword | src/open_llm_vtuber/proactive_manager.py:62-63 | true iff some keyword occurs in the title |
| ProactiveManager.StripAll | src/open_llm_vtuber/proactive_manager.py:79-80 | reference definition of the stripped tokens: each token of the stream with `strip()` applied, in order |
| ProactiveManager.RuleDecision | src/open_llm_vtuber/proactive_manager.py:57-64 | without an LLM: notify iff the event is a feed event whose lower-cased title (default `""`) contains one of the five keywords; never for any other kind |
| ProactiveManager.YesSurvivesStrip | src/open_llm_vtuber/proactive_manager.py:82-85 | the final `strip()` of the answer can neither add nor remove an occurrence of `YES` |
| ProactiveManager.YesInOneToken | src/open_llm_vtuber/proactive_manager.py:78-85 | a `YES`, in any case and with any whitespace around it, inside any single token of a reply that completes makes the verdict yes |
| ProactiveManager.LlmVerdict | src/open_llm_vtuber/proactive_manager.py:66-89 | reference definition of the LLM strategy: yes iff the stream ends without raising and `"YES"` occurs in the upper-cased, stripped concatenation of the stripped tokens; a stream that raises is a no (lines 87-89) |
| ProactiveManager.Decision | src/open_llm_vtuber/proactive_manager.py:57-89 | reference definition of `_should_notify`: the rule strategy when no LLM is configured (line 57), the LLM strategy otherwise |
| ProactiveManager.RuleAcceptsAnyUpdate | src/open_llm_vtuber/proactive_manager.py:59-63 | any feed title containing "update" is accepted by the rule, including "Boring maintenance update" |
| ProactiveManager.RuleRejectsOtherKinds | src/open_llm_vtuber/proactive_manager.py:57-64 | without an LLM, no event other than a feed event is ever accepted |
| ProactiveManager.Compose | src/open_llm_vtuber/proactive_manager.py:91-112 | reference definition of `_generate_proactive_message`: the rule text for a tick; the prefix, the title (default `"Unknown"`) and `" - " + link` only for a non-empty link for a feed event; the `text` field or `"New message received"` for a message event; a fixed phrase otherwise |
| ProactiveManager.ComposeFeed | src/open_llm_vtuber/proactive_manager.py:104-107 | a feed notification is the prefix plus the title (default "Unknown"), followed by `" - "` and the link exactly when the link is non-empty |
| ProactiveManager.TickNotification | src/open_llm_vtuber/proactive_manager.py:125-129 | reference definition of the tick payload: type `"proactive_message"`, the composed text, source `"time_based"` and no `event_data` |
| ProactiveManager.EventNotification | src/open_llm_vtuber/proactive_manager.py:137-142 | reference definition of the payload for an accepted event: the composed text, the event type as source and the event payload as `event_data` |
| ProactiveManager.Outgoing | src/open_llm_vtuber/proactive_manager.py:114-149 | reference definition of the sink calls `_process_event` makes for one event: none while disabled; the tick payload for a tick, without consulting the policy; the event payload when `Decision` accepts; none otherwise |
| ProactiveManager.Consume | src/open_llm_vtuber/proactive_manager.py:179-190 | reference definition of the consumer loop: the events are processed in order, each under the `enabled` flag set by the latest `enable`/`disable` (lines 226-234), and nothing is taken from the queue after `stop` |
| ProactiveManager.DisabledSendsNothing | src/open_llm_vtuber/proactive_manager.py:114-117 | while disabled, with no `enable` call, the sink is never called, whatever events arrive |
| ProactiveManager.AtMostOneBroadcastPerEvent | src/open_llm_vtuber/proactive_manager.py:114-149 | each event adds at most one sink call, and the calls already made are kept |
| ProactiveManager.TickBypassesPolicy | src/open_llm_vtuber/proactive_manager.py:122-132 | when enabled, a tick is broadcast with the rule text and source `time_based`, whatever the LLM would have answered |
| ProactiveManager.ProactiveChatManager.constructor | src/open_llm_vtuber/proactive_manager.py:13-45 | the manager starts not running, with no tasks, and with the given rule text and `enabled` flag |
| ProactiveManager.ProactiveChatManager.AskLlm | src/open_llm_vtuber/proactive_manager.py:66-89 | yes iff the stream completes and `YES` occurs in the upper-cased concatenation of its stripped tokens; a stream that raises is no |
| ProactiveManager.ProactiveChatManager.ShouldNotify | src/open_llm_vtuber/proactive_manager.py:47-89 | the rule's verdict without an LLM, the LLM's verdict with one |
| ProactiveManager.ProactiveChatManager.Broadcast | src/open_llm_vtuber/proactive_manager.py:137-149 | the sink receives this one notification, appended to its calls, whether or not it then raises: `_process_event` only logs the exception (lines 148-149) |
| ProactiveManager.ProactiveChatManager.ProcessEvent | src/open_llm_vtuber/proactive_manager.py:114-149 | disabled: no call. Tick: one time-based call. Any other event: one call carrying its kind and payload, exactly when the policy accepts it |
| ProactiveManager.ProactiveChatManager.Stop | src/open_llm_vtuber/proactive_manager.py:206-224 | stop on an idle manager does nothing; otherwise the manager is not running and holds no tasks |
| ProactiveManager.ProactiveChatManager.Enable | src/open_llm_vtuber/proactive_manager.py:226-229 | the manager is enabled |
| ProactiveManager.ProactiveChatManager.Disable | src/open_llm_vtuber/proactive_manager.py:231-234 | the manager is disabled |
| ProactiveManager.ProactiveChatManager.Run | src/open_llm_vtuber/proactive_manager.py:151-190 | a no-op when already running; otherwise one task per source, events consumed in order until a stop, sink calls and the `enabled` flag as `Consume` gives them; running afterwards iff no stop came |
| BaseClient.DispatchRules | bot/base_client.py:83-106 | only `set-model-and-conf` sets the client id, to the message's `client_uid`, absent or not; a full text is forwarded unless it is a placeholder; an error gives "Unknown error" when it has no message; other types are ignored; at most one callback fires, and only an installed one |
| BaseClient.Dispatch | bot/base_client.py:83-106 | reference definition of `_handle_server_message`: by the message `type`, the new `client_uid` (line 88) and the one callback it makes, if its handler is set (lines 90-106) |
| BaseClient.Installed | bot/base_client.py:90-105 | reference definition of a callback the client may make: the one whose `on_*` handler is set, as each `if self.on_...` tests |
| BaseClient.NextUid | bot/base_client.py:88 | reference definition of the `client_uid` after one message: the message value when the type is `set-model-and-conf`, the old id otherwise |
| BaseClient.Replay | bot/base_client.py:65-81 | reference definition of the listen loop: the client id and the callbacks after a run of inbound frames, with invalid JSON frames skipped (lines 69-73) |
| BaseClient.InvalidFramesIgnored | bot/base_client.py:65-75 | frames that are not valid JSON leave no trace on the client id or on the callbacks |
| BaseClient.Valid | bot/base_client.py:69-73 | only decoded frames are kept, and never more than there were |
| BaseClient.UploadItem | bot/base_client.py:126-133 | reference definition of one image item: type `"upload"`, the image data, mime type `"image/jpeg"` |
| BaseClient.TextInputFrame | bot/base_client.py:120-133 | the text-input object carries the text, and an `images` key exactly when the list is present and non-empty, with one upload item (`image/jpeg`) per image in order |
| BaseClient.Delivered | bot/base_client.py:135-141 | a run of sends that fails on item k delivers a prefix: everything exactly when there is no fault within range |
| BaseClient.AudioFrames | bot/base_client.py:156-166 | reference definition of the frames of one audio input: `mic-audio-data` with the samples, then `mic-audio-end` |
| BaseClient.AudioIsTwoFrames | bot/base_client.py:154-172 | a complete audio input is the samples frame followed by the end frame; an incomplete one never contains the end frame |
| BaseClient.VTuberWebSocketClient.constructor | bot/base_client.py:20-36 | a client starts with no socket, no client id, not connected, no handlers, nothing sent |
| BaseClient.VTuberWebSocketClient.CanSend | bot/base_client.py:116 | reference definition of the guard in front of every send: connected and holding a socket |
| BaseClient.VTuberWebSocketClient.SetHandlers | bot/base_client.py:33-36 | the installed handlers are those given |
| BaseClient.VTuberWebSocketClient.Connect | bot/base_client.py:38-56 | connected and answering true exactly when the connection succeeds; a failure keeps any old socket reference |
| BaseClient.VTuberWebSocketClient.Disconnect | bot/base_client.py:58-63 | `is_connected` is cleared only when there is a socket |
| BaseClient.VTuberWebSocketClient.HandleServerMessage | bot/base_client.py:83-106 | the client id and the fired callbacks change exactly as `Dispatch` says |
| BaseClient.VTuberWebSocketClient.Listen | bot/base_client.py:65-81 | the decoded frames are dispatched in order (`Replay`); a listener ending in an exception leaves the client disconnected, one that simply ends does not touch the flag |
| BaseClient.VTuberWebSocketClient.Send | bot/base_client.py:136 | a send that goes through appends its frame; one that raises appends nothing |
| BaseClient.VTuberWebSocketClient.SendTextInput | bot/base_client.py:108-141 | when not connected: false and nothing sent; otherwise the text-input frame is sent, and the answer is whether it went through |
| BaseClient.VTuberWebSocketClient.SendAudioInput | bot/base_client.py:143-172 | when not connected: false and nothing sent; otherwise the samples frame, then the end frame, as far as the sends get; true iff both went |
| BaseClient.VTuberWebSocketClient.SendInterrupt | bot/base_client.py:174-196 | when not connected: false and nothing sent; otherwise one interrupt frame carrying what was heard |
| Common.Get | src/open_llm_vtuber/proactive_manager.py:61 | reference definition of `d.get(key, default)`: the value at the key, or the default when the key is missing |
| Common.Lookup | bot/base_client.py:85 | reference definition of `d.get(key)`: the value at the key, or `None` when the key is missing |
| Common.MapRole | src/open_llm_vtuber/agent/agents/advanced_memory_agent.py:146 | reference definition of the role mapping of both agents: `"user"` for `"human"`, `"assistant"` for any other role |
| DiscordBot.ResponseMessages | bot/discord/discord_bot.py:324-330 | the text is split into messages that give the text back in order: all at most 2000 characters, all but the last exactly 2000, unsplit up to the limit, at least two beyond it, none empty for a non-empty text |
| DiscordBot.SplitBoundary | bot/discord/discord_bot.py:325-326 | 2000 characters stay one message; 2001 become a full message and a one-character tail |
| DiscordBot.SendTextResponse | bot/discord/discord_bot.py:319-332 | nothing is posted when the channel is not found; otherwise the messages are posted in order until one raises; a non-empty text arrives whole iff no post failed |
| DiscordBot.FlattenPrefix | bot/discord/discord_bot.py:327-328 | a prefix of non-empty messages gives back the whole text only when it is all of them |
| DiscordBot.NormalizeContent | bot/discord/discord_bot.py:259-268 | the forwarded text is never empty unless images go with it; an unmentioned non-empty text is forwarded unchanged |
| DiscordBot.BareMentionGreets | bot/discord/discord_bot.py:262-266 | a message that is only the bot's mention becomes "Hello!" |
| DiscordBot.MentionlessContentIsStripped | bot/discord/discord_bot.py:262-266 | a mentioned message without the mention markup is only stripped, or greeted when it is blank and has no images |
| DiscordBot.Mention | bot/discord/discord_bot.py:263 | reference definition of the mention markup `<@id>` the content loses |
| DiscordBot.MentionRemovalIsOnePass | bot/discord/discord_bot.py:263 | removing the mention never lengthens the text, and one pass can leave a mention that it brings together (`<@<@1>1>` becomes `<@1>`) |
| DiscordBot.IsImage | bot/discord/discord_bot.py:223-224 | reference definition of an image attachment: a non-empty content type that starts with `image/` |
| DiscordBot.IsAudio | bot/discord/discord_bot.py:223-234 | reference definition of an audio attachment: a non-empty content type that is not an image type and starts with `audio/` |
| DiscordBot.ScanAttachments | bot/discord/discord_bot.py:219-257 | reference definition of the attachment loop: images are fetched and collected in order; the first audio ends the loop, with its samples or as unreadable; a fetch that raises ends the handling (lines 276-278) |
| DiscordBot.ImagesOf | bot/discord/discord_bot.py:222-232 | reference definition of the images of the image attachments, in order |
| DiscordBot.FirstAudioDecides | bot/discord/discord_bot.py:222-257 | the first audio attachment decides the outcome when nothing before it failed: its samples, or the conversion error, whatever follows |
| DiscordBot.ImagesInOrder | bot/discord/discord_bot.py:222-232 | without audio and failures, exactly the image attachments are collected, in order |
| DiscordBot.TextCall | bot/discord/discord_bot.py:259-272 | reference definition of the `send_text_input` call after the loop: the normalised content, and the image list only when it is non-empty |
| DiscordBot.CommandName | bot/discord/discord_bot.py:80-93 | reference definition of the name each command is registered under |
| DiscordBot.CommandNamed | bot/discord/discord_bot.py:80-93 | a name gives the command registered under it, matched exactly, and every registered name gives its command |
| DiscordBot.Invoker | bot/discord/discord_bot.py:75 | the command word is the longest whitespace-free start of the text after the prefix |
| DiscordBot.ParseCommand | bot/discord/discord_bot.py:75 | a text that does not start with the prefix is never a command |
| DiscordBot.CommandRoundTrip | bot/discord/discord_bot.py:75-93 | the prefix, a command's name and then the end of the text or whitespace and anything else parse as that command |
| DiscordBot.InvokerOfWord | bot/discord/discord_bot.py:75 | the invoked word of a message is its first word, the text up to the first whitespace |
| DiscordBot.CommandSound | bot/discord/discord_bot.py:75-93 | a text parses as a command only when it starts with the prefix and that command's name, followed by the end of the text or whitespace |
| DiscordBot.MentionIsNoCommand | bot/discord/discord_bot.py:64-75 | a text that starts with the bot's mention is never a command under the default prefix `!` |
| DiscordBot.DiscordVTuberBot.constructor | bot/discord/discord_bot.py:24-52 | the bot starts with no channel clients and keeps the given command prefix |
| DiscordBot.DiscordVTuberBot.ConnectToVtuber | bot/discord/discord_bot.py:96-130 | a registered channel keeps its client; otherwise a fresh client with all four handlers is registered exactly when it connects, and nothing else in the registry changes |
| DiscordBot.DiscordVTuberBot.DisconnectFromVtuber | bot/discord/discord_bot.py:132-147 | a registered channel's client is disconnected and its entry removed; an unknown channel changes nothing; only that client changes, and only its `is_connected` flag |
| DiscordBot.DiscordVTuberBot.InterruptConversation | bot/discord/discord_bot.py:149-157 | only a registered channel's client sends an interrupt, with nothing heard; nothing else about any client changes |
| DiscordBot.DiscordVTuberBot.StopBot | bot/discord/discord_bot.py:380-390 | every registered client is disconnected and the registry emptied; the clients keep their sockets, frames, ids, handlers and callbacks |
| DiscordBot.DiscordVTuberBot.HandledFrames | bot/discord/discord_bot.py:214-274 | reference definition of the frames `handle_user_message` sends through a registered client: nothing unless it can send; the audio frames for the first audio; the text-input frame otherwise; each cut off where a send raises |
| DiscordBot.DiscordVTuberBot.HandleUserMessage | bot/discord/discord_bot.py:199-278 | unregistered channel: "Not Connected". Failures and unreadable audio: their replies and nothing sent. Audio: sent on its own. Otherwise: the normalised text with the images if any. Each send failure gets its own reply. The client's frames grow by `HandledFrames` and nothing else changes |
| DiscordBot.DiscordVTuberBot.DispatchCommand | bot/discord/discord_bot.py:75-95 | bots never run commands; otherwise the parsed command runs for the message's channel (connect, disconnect or interrupt, as those methods say) and the help commands change nothing |
| DiscordBot.DiscordVTuberBot.OnMessage | bot/discord/discord_bot.py:64-95 | a message is handled iff it is not the bot's own and it is a DM or mentions the bot; any message not the bot's own, and not from a bot, is then looked up as a command; the channel's client sends the handled frames followed by an interrupt when the command is `interrupt` |
| AdvancedMemoryAgent.HistoryMessages | src/open_llm_vtuber/agent/agents/advanced_memory_agent.py:145-149 | one message per history entry, in order, `human` mapped to `user` and anything else to `assistant` |
| AdvancedMemoryAgent.MemText | src/open_llm_vtuber/agent/agents/advanced_memory_agent.py:105 | reference definition of `mem.get('memory', '')` |
| AdvancedMemoryAgent.IsInsight | src/open_llm_vtuber/agent/agents/advanced_memory_agent.py:106 | reference definition of an insight memory: its memory text starts with `[USER_INSIGHT]` |
| AdvancedMemoryAgent.InsightsFrom | src/open_llm_vtuber/agent/agents/advanced_memory_agent.py:103-108 | reference definition of the loaded insights: the text of every insight memory with the marker removed, in order |
| AdvancedMemoryAgent.SavedFacts | src/open_llm_vtuber/agent/agents/advanced_memory_agent.py:269-281 | reference definition of the saved facts of a list of memories: the `FactOf` of each, in order |
| AdvancedMemoryAgent.FactOf | src/open_llm_vtuber/agent/agents/advanced_memory_agent.py:272-281 | reference definition of what one memory adds to the saved facts: nothing for an insight; the text without its marker for a `[SAVED_FACT]` text; its `text` key, or the whole record, for a `saved_fact` metadata type; nothing otherwise |
| AdvancedMemoryAgent.SavedInsight | src/open_llm_vtuber/agent/agents/advanced_memory_agent.py:123-124 | reference definition of the memory stored for one insight: the marked text `[USER_INSIGHT] insight`, stored as it is given |
| AdvancedMemoryAgent.SavedFactsAppend | src/open_llm_vtuber/agent/agents/advanced_memory_agent.py:269-281 | the saved facts of two lists of memories are those of the first followed by those of the second |
| AdvancedMemoryAgent.StoredInsightsHoldNoFacts | src/open_llm_vtuber/agent/agents/advanced_memory_agent.py:122-124 | the memories `_save_user_insights` stores contribute no saved fact, because they are insights (line 274) |
| AdvancedMemoryAgent.SavedFactsIgnoreNewInsights | src/open_llm_vtuber/agent/agents/advanced_memory_agent.py:267-281 | the saved facts read by the `get_all` at line 267 are those of the `get_all` at line 174: the insights saved in between add none. So one memory list can stand for both reads |
| AdvancedMemoryAgent.InsightsFromAppend | src/open_llm_vtuber/agent/agents/advanced_memory_agent.py:102-108 | the insights of two memory lists are those of each, in order |
| AdvancedMemoryAgent.InsightsRoundTrip | src/open_llm_vtuber/agent/agents/advanced_memory_agent.py:104-108 | saving insights as tagged memories and loading them back gives the same insights in order, for insights that do not contain the marker |
| AdvancedMemoryAgent.InsightsAreNotFacts | src/open_llm_vtuber/agent/agents/advanced_memory_agent.py:271-281 | no memory is both an insight and a saved fact; an insight memory gives exactly one insight |
| AdvancedMemoryAgent.JsonSliceBounds | src/open_llm_vtuber/agent/agents/advanced_memory_agent.py:211-213 | with a `[` before a `]`, the slice runs from the first `[` to the last `]`, both included |
| AdvancedMemoryAgent.JsonSliceWithoutBrackets | src/open_llm_vtuber/agent/agents/advanced_memory_agent.py:211-214 | a reply without brackets gives the empty slice |
| AdvancedMemoryAgent.JsonSlice | src/open_llm_vtuber/agent/agents/advanced_memory_agent.py:211-213 | reference definition of the slice from the first `[` to the last `]`, with `find`/`rfind` returning -1 when absent and Python slice semantics |
| AdvancedMemoryAgent.RecentTexts | src/open_llm_vtuber/agent/agents/advanced_memory_agent.py:180-183 | no text that reaches the insight prompt is an insight, and there are no more texts than memories |
| AdvancedMemoryAgent.HistoryText | src/open_llm_vtuber/agent/agents/advanced_memory_agent.py:180-183 | reference definition of the history text: the memory texts of the last 40 memories, insights left out, one per line |
| AdvancedMemoryAgent.FormatInsight | src/open_llm_vtuber/agent/agents/advanced_memory_agent.py:217 | reference definition of one generated insight: `- insight (Confidence: confidence)` |
| AdvancedMemoryAgent.HistoryTextIgnoresOlder | src/open_llm_vtuber/agent/agents/advanced_memory_agent.py:180-183 | memories older than the last 40 never affect the insight prompt |
| AdvancedMemoryAgent.Bullets | src/open_llm_vtuber/agent/agents/advanced_memory_agent.py:300 | each item is prefixed with `- `, in order |
| AdvancedMemoryAgent.PromptParts | src/open_llm_vtuber/agent/agents/advanced_memory_agent.py:292-313 | reference definition of `system_prompt_parts`: the base prompt, then the insights, saved-facts and relevant-history sections, each only when non-empty |
| AdvancedMemoryAgent.SystemPrompt | src/open_llm_vtuber/agent/agents/advanced_memory_agent.py:315 | reference definition of the enhanced system prompt: the parts joined by newlines |
| AdvancedMemoryAgent.SystemPromptShape | src/open_llm_vtuber/agent/agents/advanced_memory_agent.py:292-315 | the prompt begins with the base prompt, is exactly the base when there is nothing to add, and holds the insights, saved-facts and history sections in that order, each only when non-empty |
| AdvancedMemoryAgent.InsightsSection | src/open_llm_vtuber/agent/agents/advanced_memory_agent.py:294-296 | with insights only, the prompt is the base, a line break and the insights section |
| AdvancedMemoryAgent.ToMessageContent | src/open_llm_vtuber/agent/agents/advanced_memory_agent.py:229-243 | plain text iff there are no images; otherwise a text part followed by one `image_url` part per image, in order, with detail `auto` |
| AdvancedMemoryAgent.WithSystem | src/open_llm_vtuber/agent/agents/advanced_memory_agent.py:317-321 | the message list starts with the enhanced system message: it replaces an existing system message, or is inserted in front of the rest, which is kept in order |
| AdvancedMemoryAgent.Prompted | src/open_llm_vtuber/agent/agents/advanced_memory_agent.py:317-329 | reference definition of `_memory` after the prompt is built: a leading system message gets the enhanced prompt, since the shallow copy shares that dict (line 319); an insertion at the front of the copy (line 321) does not reach `_memory`; the user message is added (line 329) |
| AdvancedMemoryAgent.TurnRecord | src/open_llm_vtuber/agent/agents/advanced_memory_agent.py:360 | reference definition of the text stored in mem0 after a completed turn |
| AdvancedMemoryAgent.SavedRecords | src/open_llm_vtuber/agent/agents/advanced_memory_agent.py:122-124 | one `add` call of the tagged text per insight, in order |
| AdvancedMemoryAgent.CollectInsights | src/open_llm_vtuber/agent/agents/advanced_memory_agent.py:103-108 | the loop collects exactly `InsightsFrom` the results |
| AdvancedMemoryAgent.CollectSavedFacts | src/open_llm_vtuber/agent/agents/advanced_memory_agent.py:269-281 | the loop collects exactly `SavedFacts` of the results: a `[SAVED_FACT]` text with its marker removed, or a record typed `saved_fact`, never an insight |
| AdvancedMemoryAgent.MemoryFact | src/open_llm_vtuber/agent/agents/advanced_memory_agent.py:272-281 | the body of the saved-facts loop for one memory returns exactly `FactOf` of it |
| AdvancedMemoryAgent.AdvancedMemoryAgent.constructor | src/open_llm_vtuber/agent/agents/advanced_memory_agent.py:75-88 | the assignments of `__init__` itself: no insights (line 76), a zero counter (line 77), and nothing added to mem0 yet; mem0 is there iff `Memory.from_config` succeeded (lines 80-88). The memory and `_system` come from the parent constructor and are given as they are |
| AdvancedMemoryAgent.AdvancedMemoryAgent.LoadUserInsights | src/open_llm_vtuber/agent/agents/advanced_memory_agent.py:94-114 | the insights found replace the current ones, unless there are none or there is no mem0 |
| AdvancedMemoryAgent.AdvancedMemoryAgent.SaveUserInsights | src/open_llm_vtuber/agent/agents/advanced_memory_agent.py:116-127 | with mem0, one tagged memory per insight, in order; nothing otherwise |
| AdvancedMemoryAgent.AdvancedMemoryAgent.SetMemoryFromHistory | src/open_llm_vtuber/agent/agents/advanced_memory_agent.py:140-158 | with mem0, the memory is reset to the system message followed by the role-mapped history, and the same messages are added in one call when there are any |
| AdvancedMemoryAgent.InsightUpdate | src/open_llm_vtuber/agent/agents/advanced_memory_agent.py:161-227 | reference definition of `_update_user_insights`: the new insights and the mem0 adds, from mem0, the counter, the current insights, the memories read, the LLM reply and what `json.loads` returns |
| AdvancedMemoryAgent.InsightUpdateShape | src/open_llm_vtuber/agent/agents/advanced_memory_agent.py:161-227 | for every input: without mem0 or off the 20-conversation schedule nothing changes; the new insights are the old ones, empty, or exactly one `FormatInsight` per parsed item; whatever is saved is exactly the new insights; a save needs at least 5 memories, a non-blank history and a reply that completed; a reply that raises saves nothing and keeps or clears the insights |
| AdvancedMemoryAgent.AdvancedMemoryAgent.UpdateUserInsights | src/open_llm_vtuber/agent/agents/advanced_memory_agent.py:161-227 | the insights and the mem0 adds become exactly those of `InsightUpdate` for the current counter |
| AdvancedMemoryAgent.AdvancedMemoryAgent.ConstructMessages | src/open_llm_vtuber/agent/agents/advanced_memory_agent.py:245-331 | the list is the memory with the enhanced system message in front, plus the user's message; the memory's own system message is overwritten too (shallow copy), and the user's message is appended to it; the insights and adds change as `InsightUpdate` says |
| AdvancedMemoryAgent.AdvancedMemoryAgent.Chat | src/open_llm_vtuber/agent/agents/advanced_memory_agent.py:344-370 | the tokens are passed on unchanged; the insight update runs with the counter before the turn; the memory holds the prompted messages, plus the reply when it completes; only a completed reply is stored as a turn record in mem0 and counted, once |
| AdvancedMemoryAgent.StripBlank | src/open_llm_vtuber/agent/agents/advanced_memory_agent.py:185 | `strip()` gives the empty string exactly when the text is all whitespace |
| AdvancedMemoryAgent.CounterAfter | src/open_llm_vtuber/agent/agents/advanced_memory_agent.py:369 | reference definition of the conversation counter after a run of turns: one more for each turn whose reply completes |
| AdvancedMemoryAgent.CounterAfterAppend | src/open_llm_vtuber/agent/agents/advanced_memory_agent.py:369-370 | one more turn raises the conversation counter by one exactly when its reply completes |
| AdvancedMemoryAgent.CounterAllComplete | src/open_llm_vtuber/agent/agents/advanced_memory_agent.py:369-370 | for a fresh agent whose replies all complete, the counter before turn t is t |
| AdvancedMemoryAgent.RegenerationTurns | src/open_llm_vtuber/agent/agents/advanced_memory_agent.py:171-172 | for a fresh agent whose replies all complete, the insight update is a no-op except at turns that are multiples of 20, the first turn included, where it runs as at count 0 |
| Mem0Agent.PushedDropsOldest | src/open_llm_vtuber/agent/agents/mem0_llm.py:109 | appending to the bounded buffer loses nothing below 20 entries and drops exactly the oldest at 20; the buffer never exceeds 20 |
| Mem0Agent.Pushed | src/open_llm_vtuber/agent/agents/mem0_llm.py:109 | reference definition of `deque(maxlen=20).append`: the newest 20 of the old contents and the new entry |
| Mem0Agent.Heard | src/open_llm_vtuber/agent/agents/mem0_llm.py:134 | reference definition of an interrupted reply: what was heard, then an ellipsis |
| Mem0Agent.AfterInterrupt | src/open_llm_vtuber/agent/agents/mem0_llm.py:131-140 | reference definition of `handle_interrupt`: a trailing assistant message is overwritten with what was heard, otherwise that message is appended; then the interruption marker is appended |
| Mem0Agent.InterruptShape | src/open_llm_vtuber/agent/agents/mem0_llm.py:131-140 | after an interruption the buffer ends with the heard reply plus an ellipsis, then the interruption marker; it grows by one when a trailing reply was rewritten, by two otherwise, up to 20 |
| Mem0Agent.PushAll | src/open_llm_vtuber/agent/agents/mem0_llm.py:147-149 | appending messages one at a time keeps the newest 20 of the old buffer and everything appended |
| Mem0Agent.Mapped | src/open_llm_vtuber/agent/agents/mem0_llm.py:147-149 | the history entries as buffer entries with their roles mapped, in the same order |
| Mem0Agent.Singletons | src/open_llm_vtuber/agent/agents/mem0_llm.py:151 | reference definition of the short-term `add` calls: one per entry, each with that entry alone |
| Mem0Agent.Fmt | src/open_llm_vtuber/agent/agents/mem0_llm.py:179-180 | reference definition of `_fmt`: the memory texts joined by newlines, or `""` for no memories |
| Mem0Agent.SystemSections | src/open_llm_vtuber/agent/agents/mem0_llm.py:187-193 | reference definition of `system_sections`: the template, then each formatted layer under its heading when non-empty |
| Mem0Agent.SystemText | src/open_llm_vtuber/agent/agents/mem0_llm.py:187-195 | reference definition of the system message: the sections joined by blank lines |
| Mem0Agent.SystemTextShape | src/open_llm_vtuber/agent/agents/mem0_llm.py:179-195 | the system prompt begins with the template, is exactly the template when no layer has anything, and has one section per non-empty layer |
| Mem0Agent.SummaryPrompt | src/open_llm_vtuber/agent/agents/mem0_llm.py:253-258 | reference definition of the summary prompt of one cluster: the fixed instruction, then the cluster texts one per line |
| Mem0Agent.Summaries | src/open_llm_vtuber/agent/agents/mem0_llm.py:252-268 | at most one insight per cluster |
| Mem0Agent.AllSummariesSucceed | src/open_llm_vtuber/agent/agents/mem0_llm.py:259-265 | when no summary fails, every cluster gives one insight |
| Mem0Agent.InsightCount | src/open_llm_vtuber/agent/agents/mem0_llm.py:245-268 | n memories give at most `ceil(n / 20)` insights, exactly that many when every summary succeeds |
| Mem0Agent.AdvancedMem0LLMAgent.constructor | src/open_llm_vtuber/agent/agents/mem0_llm.py:76-113 | the agent starts with an empty buffer, nothing added to any layer and no insights |
| Mem0Agent.AdvancedMem0LLMAgent.Append | src/open_llm_vtuber/agent/agents/mem0_llm.py:109 | the buffer becomes the newest 20 of its old contents and the new message |
| Mem0Agent.AdvancedMem0LLMAgent.HandleInterrupt | src/open_llm_vtuber/agent/agents/mem0_llm.py:131-140 | a trailing assistant message is rewritten with what was heard, otherwise that is appended; then the interruption marker is appended |
| Mem0Agent.AdvancedMem0LLMAgent.SetMemoryFromHistory | src/open_llm_vtuber/agent/agents/mem0_llm.py:142-154 | the last 20 history entries, role-mapped, are appended to the buffer (not reset) and each added to the short-term layer; the whole history goes to the long-term layer |
| Mem0Agent.AdvancedMem0LLMAgent.PushHistory | src/open_llm_vtuber/agent/agents/mem0_llm.py:147-151 | the loop over the recent entries leaves the buffer as the newest 20 of the old buffer followed by the mapped entries, and records one short-term add per entry, in order |
| Mem0Agent.AdvancedMem0LLMAgent.Record | src/open_llm_vtuber/agent/agents/mem0_llm.py:149-151 | one loop step: the entry is pushed onto the bounded buffer and added to the short-term layer on its own |
| Mem0Agent.AdvancedMem0LLMAgent.ChatIter | src/open_llm_vtuber/agent/agents/mem0_llm.py:169-217 | the prompt is buffered first. The context is the assembled system message followed by the buffer. Deltas are passed on with `None` as `""`. A completed reply is buffered and added to the short-term layer; after a raise only the prompt is recorded |
| Mem0Agent.AdvancedMem0LLMAgent.Chat | src/open_llm_vtuber/agent/agents/mem0_llm.py:119-129 | an input without texts raises ValueError and changes nothing; otherwise the first text is the prompt: the reply chunks are the deltas with `None` as `""`, the prompt is buffered and added to the short-term layer, and so is the joined reply unless the stream raised |
| Mem0Agent.AdvancedMem0LLMAgent.RecomputeInsights | src/open_llm_vtuber/agent/agents/mem0_llm.py:235-273 | without memories, nothing changes; otherwise the insight layer is replaced by the stripped summaries of the 20-memory clusters whose summary succeeded, in order |
| Text.Find | src/open_llm_vtuber/agent/agents/advanced_memory_agent.py:212 | `find` is -1 iff the pattern does not occur, and otherwise an index where it occurs |
| Text.StartsWith | src/open_llm_vtuber/agent/agents/advanced_memory_agent.py:106 | reference definition of `s.startswith(p)` |
| Text.Contains | src/open_llm_vtuber/proactive_manager.py:63 | reference definition of `p in s`: `p` occurs in `s` as a contiguous substring |
| Text.IsSpace | src/open_llm_vtuber/proactive_manager.py:80 | reference definition of the characters `str.isspace` accepts, which `strip()` removes |
| Text.Strip | src/open_llm_vtuber/proactive_manager.py:80 | reference definition of `s.strip()`: the leading and then the trailing whitespace removed |
| Text.Replace | src/open_llm_vtuber/agent/agents/advanced_memory_agent.py:107 | reference definition of `s.replace(pat, rep)`: one left-to-right pass over non-overlapping occurrences, with the replaced text not rescanned and Python's rule for an empty pattern |
| Text.PySlice | src/open_llm_vtuber/agent/agents/advanced_memory_agent.py:211-213 | reference definition of `s[i:j]`: negative indices counted from the end, both ends clamped, empty when they cross; never longer than `s` |
| Text.Upper | src/open_llm_vtuber/proactive_manager.py:82 | `s.upper()` on ASCII letters: the same length, each character upper-cased |
| Text.Lower | src/open_llm_vtuber/proactive_manager.py:61 | `s.lower()` on ASCII letters: the same length, each character lower-cased |
| Text.Concat | src/open_llm_vtuber/agent/agents/advanced_memory_agent.py:209 | reference definition of `"".join(parts)` |
| Text.Join | src/open_llm_vtuber/agent/agents/advanced_memory_agent.py:180 | reference definition of `sep.join(parts)`: the parts with the separator between each two |
| Text.RFind | src/open_llm_vtuber/agent/agents/advanced_memory_agent.py:212 | `rfind` is -1 iff the pattern does not occur, and otherwise an index where it occurs |
| Text.StripKeepsOccurrence | src/open_llm_vtuber/proactive_manager.py:80-82 | stripping keeps or drops no occurrence of a pattern without whitespace |
| Text.ReplaceMarkerPrefix | src/open_llm_vtuber/agent/agents/advanced_memory_agent.py:107 | removing a marker from a text that begins with it gives the rest, when the rest does not contain the marker |
| Seqs.ChunksCover | bot/discord/discord_bot.py:326 | the chunks give the sequence back in order, are non-empty, at most n long, and all but the last exactly n |
| Seqs.Chunks | src/open_llm_vtuber/agent/agents/mem0_llm.py:247-249 | reference definition of `[s[i:i + n] for i in range(0, len(s), n)]`, also used at discord_bot.py line 326 |
| Seqs.ChunkCount | src/open_llm_vtuber/agent/agents/mem0_llm.py:247-249 | there are `ceil(len / n)` chunks, as many as `range(0, len, n)` has elements |
| Seqs.ChunkAt | src/open_llm_vtuber/agent/agents/mem0_llm.py:247-249 | chunk k is exactly the slice `[k*n : k*n + n]` |
| Seqs.LastN | src/open_llm_vtuber/agent/agents/mem0_llm.py:147 | `s[-n:]` is the suffix of length min(len, n) |
| Seqs.LastNAppend | src/open_llm_vtuber/agent/agents/mem0_llm.py:109 | keeping the newest n before appending gives the same as appending all then keeping the newest n |

## Left out

- Concurrency is left out: asyncio tasks, the event queue between producers and consumer, cancellation, and `start_detached`. The consumer loop is modelled as the sequence of steps it sees, and `enable`/`disable`/`stop` calls are steps between events.
- Clocks and sleeping are left out: the wall-clock minute and second, the timestamps, `asyncio.sleep`, the polling interval, and the hourly insight timer with its `_periodic_insight_refresh` loop. They are inputs or not modelled.
- Outside services are inputs: the network, feedparser, Discord, websockets, the LLM endpoints and mem0. A mem0 search or `get_all` result is a list of records, and what mem0 stores is the list of `add` calls made. Memory records are assumed to be stored verbatim, which `InsightsRoundTrip` relies on.
- JSON is not modelled: `json.dumps` formatting, and `json.loads`, which is a function parameter returning `None` for invalid input. For the insight items, a missing key is also `None`.
- Discord output is left out: the embed titles, colours and help text, the presence update, and `send_audio_response`, `send_error_message` and `send_connection_message`. They only format output. The model records which callback fired with which arguments.
- Audio conversion is left out: the floating-point resampling and normalisation, and the temp-file handling. The converted samples are an input, or `None` when conversion failed.
- Command parsing follows the discord.py defaults, and discord.py is not part of this model. The text must start with the exact prefix, the command word runs up to the first whitespace and is matched case-sensitively, and messages from bots run no command. The default `help` command and `help_vtuber` only post to Discord, so they change no state here.
- Image handling is left out: image download, `image_to_base64` and `bytes_to_base64`. The base64 text is an input.
- Casing is ASCII-only: Python's Unicode case mapping (for `lower()`/`upper()`) is reduced to ASCII letters.
- Payload contents are reduced: value types are strings only, so a nested `display_text` object is not representable.
- AdvancedMemoryAgent.AdvancedMemoryAgent.constructor: `_system` and the initial `_memory` are set by `BasicMemoryAgent.__init__`, which is not part of this model. The model takes `_system` to be the `system` argument, and it takes the initial memory as a parameter with no shape assumed. The `_load_user_insights` call at the end of `__init__` is the separate `LoadUserInsights`.
- AdvancedMemoryAgent.AdvancedMemoryAgent.ConstructMessages: one parameter `all` stands for both `get_all` reads (advanced_memory_agent.py lines 174 and 267). Between them the only new memories are the insights `_save_user_insights` stores. `SavedFactsIgnoreNewInsights` proves that these add no saved fact, provided mem0 stores them verbatim after the earlier memories. So the facts read at line 267 are those of `all`.
- AdvancedMemoryAgent.AdvancedMemoryAgent.SetMemoryFromHistory: the branch without mem0 delegates to the parent class `BasicMemoryAgent`, which is not part of this model, so the contract leaves that branch open.
- The parent `BasicMemoryAgent` provides `_to_text_prompt` and `_add_message`, and neither is part of this model. The prompt text is an input, and `_add_message` is taken to append one message to `_memory`.
- The sentence, action, display and TTS decorators around `chat_with_advanced_memory` are not part of this model. The model yields the raw tokens.
- BaseClient.VTuberWebSocketClient.Listen: how the websockets library ends iteration is a parameter. With that library a clean close ends the `async for` normally, which leaves `is_connected` true.
- BaseClient.VTuberWebSocketClient.Disconnect: a `close()` that raises is not modelled.
- `remember()` in mem0_llm.py is one long-term `add` of a system message. It is not modelled because nothing in the core calls it.
- `__aexit__` of mem0_llm.py names `contextlib`, which the file never imports. The file also ends with a stray quote character, so as written it does not parse. The model follows the evident intent of the remaining methods.
- `SHORT_MEMORY_SEARCH_LIMIT`, `LONG_MEMORY_SEARCH_LIMIT`, `INSIGHT_SEARCH_LIMIT` and the `limit=5` search are mem0 parameters. The hits are given already limited.
- Text.Find and Text.RFind do not state that the index is the first or last occurrence. Only membership and the occurrence at the index are proved.
- The Telegram bot, the launchers and the configuration models are context around the core and are not modelled.
- Logging and the `verbose` debug dump are not modelled.
