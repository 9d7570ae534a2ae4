/**
 * The Discord front end (bot/discord/discord_bot.py): which messages reach
 * the VTuber, how their content is normalised, how attachments are routed,
 * how long answers are split for Discord's 2000-character limit, and the
 * registry of one WebSocket client per channel.
 *
 * Discord itself is reduced to what the handlers read: the channel id,
 * whether the message is the bot's own, a DM or a mention, its text and
 * its attachments. A downloaded image is given as its base64 text, a
 * converted audio file as its samples (or `None` when conversion failed).
 * Replies to the user are returned as values.
 */
module DiscordBot {
  import opened Common
  import opened Text
  import opened Seqs
  import opened BaseClient

  /** Discord's limit on the length of one message. */
  const MaxMessage: nat := 2000

  // ---------------------------------------------------------------------
  // send_text_response
  // ---------------------------------------------------------------------

  /**
   * The messages a text response becomes: the text itself up to the limit,
   * its consecutive 2000-character slices beyond it.
   */
  function ResponseMessages(text: string): (r: seq<string>)
    ensures Flatten(r) == text
    ensures forall k :: 0 <= k < |r| ==> |r[k]| <= MaxMessage
    ensures forall k :: 0 <= k < |r| - 1 ==> |r[k]| == MaxMessage
    ensures |text| <= MaxMessage ==> r == [text]
    ensures |text| > MaxMessage ==> |r| >= 2
    ensures text != "" ==> forall k :: 0 <= k < |r| ==> r[k] != ""
  {
    if |text| > MaxMessage then
      ChunksCover(text, MaxMessage);
      assert Chunks(text, MaxMessage) == [text[..MaxMessage]] + Chunks(text[MaxMessage..], MaxMessage);
      Chunks(text, MaxMessage)
    else
      assert Flatten([text]) == text + [];
      [text]
  }

  /** A text of exactly the limit is not split; one character more gives a full message and a one-character tail. */
  lemma SplitBoundary(text: string)
    requires |text| == MaxMessage + 1
    ensures ResponseMessages(text) == [text[..MaxMessage], text[MaxMessage..]]
    ensures ResponseMessages(text[..MaxMessage]) == [text[..MaxMessage]]
  {
    var r := ResponseMessages(text);
    ChunkCount(text, MaxMessage);
    assert |r| == 2;
    ChunkAt(text, MaxMessage, 0);
    ChunkAt(text, MaxMessage, 1);
  }

  /**
   * `send_text_response`: nothing when the channel cannot be found;
   * otherwise the messages are posted in order until one post raises.
   */
  method SendTextResponse(text: string, channelFound: bool, fault: Option<nat>) returns (posted: seq<string>)
    ensures !channelFound ==> posted == []
    ensures channelFound ==> posted == Delivered(ResponseMessages(text), fault)
    ensures text != "" ==> (Flatten(posted) == text <==> channelFound && (fault.None? || fault.value >= |ResponseMessages(text)|))
  {
    posted := [];
    if !channelFound {
      assert Flatten(posted) == [];
      return;
    }
    var chunks := ResponseMessages(text);
    var i := 0;
    while i < |chunks| && fault != Some(i)
      invariant 0 <= i <= |chunks|
      invariant posted == chunks[..i]
      invariant fault.Some? ==> i <= fault.value
    {
      posted := posted + [chunks[i]];
      i := i + 1;
    }
    assert posted == Delivered(chunks, fault);
    if text != "" {
      FlattenPrefix(chunks, i);
    }
  }

  /** Only the whole sequence of messages gives the whole text back. */
  lemma FlattenPrefix(chunks: seq<string>, i: nat)
    requires i <= |chunks| && forall k :: 0 <= k < |chunks| ==> chunks[k] != []
    ensures Flatten(chunks[..i]) == Flatten(chunks) <==> i == |chunks|
  {
    if i < |chunks| {
      FlattenSplit(chunks, i);
      assert chunks[i..] == [chunks[i]] + chunks[i + 1..];
      assert |Flatten(chunks[i..])| >= |chunks[i]| > 0;
    } else {
      assert chunks[..i] == chunks;
    }
  }

  lemma {:induction false} FlattenSplit<T>(parts: seq<seq<T>>, i: nat)
    requires i <= |parts|
    ensures Flatten(parts) == Flatten(parts[..i]) + Flatten(parts[i..])
    decreases i
  {
    if i == 0 {
      assert parts[..0] == [] && parts[0..] == parts;
    } else {
      FlattenSplit(parts[1..], i - 1);
      assert parts[1..][..i - 1] == parts[1..i] && parts[1..][i - 1..] == parts[i..];
      assert parts[..i][0] == parts[0] && parts[..i][1..] == parts[1..i];
    }
  }

  // ---------------------------------------------------------------------
  // handle_user_message: content and attachments
  // ---------------------------------------------------------------------

  /** The mention markup `<@id>` for a user id written in decimal. */
  function Mention(userId: string): string {
    "<@" + userId + ">"
  }

  /** What replaces an empty message that carries no images. */
  const Greeting: string := "Hello!"

  /**
   * The text forwarded for a message: when the bot is mentioned, its
   * mention markup is removed and the rest stripped; an empty result with
   * no images becomes the greeting.
   */
  function NormalizeContent(content: string, mentioned: bool, userId: string, hasImages: bool): (r: string)
    ensures r != "" || hasImages
    ensures !mentioned && content != "" ==> r == content
  {
    var c := if mentioned then Strip(Replace(content, Mention(userId), "")) else content;
    if c == "" && !hasImages then Greeting else c
  }

  /** A bare mention is a greeting. */
  lemma BareMentionGreets(userId: string)
    ensures NormalizeContent(Mention(userId), true, userId, false) == Greeting
  {
    var m := Mention(userId);
    assert m == m + [];
    ReplaceMarkerPrefix(m, []);
  }

  /** Without a mention in the text, a mentioned message is only stripped. */
  lemma MentionlessContentIsStripped(content: string, userId: string, hasImages: bool)
    requires !Contains(content, Mention(userId))
    ensures NormalizeContent(content, true, userId, hasImages)
            == (if Strip(content) == "" && !hasImages then Greeting else Strip(content))
  {
    ReplaceAbsent(content, Mention(userId), "");
  }

  /** The removal is one pass of `str.replace`: no longer than before, and it may leave a mention it brings together. */
  lemma MentionRemovalIsOnePass(content: string, userId: string)
    ensures |Replace(content, Mention(userId), "")| <= |content|
    ensures Replace("<@<@1>1>", Mention("1"), "") == Mention("1")
  {
    ReplaceByEmptyShrinks(content, Mention(userId));
    var m := Mention("1");
    assert m == "<@1>";
    var s := "<@<@1>1>";
    assert !StartsWith(s, m) by { assert s[..4][2] != m[2]; }
    assert s[1..] == "@<@1>1>";
    assert !StartsWith(s[1..], m) by { assert s[1..][..4][0] != m[0]; }
    assert s[2..] == m + "1>";
    assert StartsWith(s[2..], m);
    assert s[2..][4..] == "1>";
    ReplaceAbsent("1>", m, "");
    assert Replace(s[2..], m, "") == "1>";
  }

  /** One file attached to a message, with what fetching and converting it yields. */
  datatype Attachment = Attachment(
    contentType: Option<string>,
    fetchFails: bool,          // the download (image) or save (audio) raises
    image: string,             // the base64 text of a downloaded image
    audio: Option<seq<real>>)  // the converted samples of an audio file, `None` if conversion failed

  /** `if attachment.content_type:` — `None` and `""` both skip the attachment. */
  predicate Typed(a: Attachment) {
    a.contentType.Some? && a.contentType.value != ""
  }

  predicate IsImage(a: Attachment) {
    Typed(a) && StartsWith(a.contentType.value, "image/")
  }

  predicate IsAudio(a: Attachment) {
    Typed(a) && !IsImage(a) && StartsWith(a.contentType.value, "audio/")
  }

  /** Where the attachment loop leaves the handler. */
  datatype Scan =
    | TextWith(images: seq<string>)   // the loop ran to its end
    | Audio(samples: seq<real>)       // returned after sending audio
    | AudioUnreadable                 // returned after reporting the conversion failure
    | Failed                          // an exception reached the outer `try`

  /** The attachment loop, from the images collected so far. */
  function ScanAttachments(attachments: seq<Attachment>, images: seq<string>): Scan
    decreases |attachments|
  {
    if attachments == [] then TextWith(images)
    else
      var a := attachments[0];
      if IsImage(a) then
        if a.fetchFails then Failed else ScanAttachments(attachments[1..], images + [a.image])
      else if IsAudio(a) then
        if a.fetchFails then Failed
        else if a.audio.Some? then Audio(a.audio.value)
        else AudioUnreadable
      else ScanAttachments(attachments[1..], images)
  }

  /**
   * The first audio attachment decides: when nothing before it fails, the
   * message is answered by that audio alone, whatever comes after it, and
   * no text is sent for it.
   */
  lemma {:induction false} FirstAudioDecides(attachments: seq<Attachment>, images: seq<string>, k: nat)
    requires k < |attachments| && IsAudio(attachments[k]) && !attachments[k].fetchFails
    requires forall j :: 0 <= j < k ==> !IsAudio(attachments[j]) && !(IsImage(attachments[j]) && attachments[j].fetchFails)
    ensures ScanAttachments(attachments, images)
            == if attachments[k].audio.Some? then Audio(attachments[k].audio.value) else AudioUnreadable
    decreases k
  {
    if k > 0 {
      var a := attachments[0];
      var next := if IsImage(a) then images + [a.image] else images;
      assert forall j :: 0 <= j < k - 1 ==> attachments[1..][j] == attachments[j + 1];
      FirstAudioDecides(attachments[1..], next, k - 1);
    }
  }

  /** Without audio attachments and failures the images are collected in order, from the image attachments only. */
  lemma {:induction false} ImagesInOrder(attachments: seq<Attachment>, images: seq<string>)
    requires forall j :: 0 <= j < |attachments| ==> !IsAudio(attachments[j]) && !attachments[j].fetchFails
    ensures ScanAttachments(attachments, images) == TextWith(images + ImagesOf(attachments))
    decreases |attachments|
  {
    if attachments != [] {
      var a := attachments[0];
      assert forall j :: 0 <= j < |attachments| - 1 ==> attachments[1..][j] == attachments[j + 1];
      if IsImage(a) {
        ImagesInOrder(attachments[1..], images + [a.image]);
        assert images + [a.image] + ImagesOf(attachments[1..]) == images + ([a.image] + ImagesOf(attachments[1..]));
      } else {
        ImagesInOrder(attachments[1..], images);
      }
    }
  }

  function ImagesOf(attachments: seq<Attachment>): seq<string> {
    if attachments == [] then []
    else (if IsImage(attachments[0]) then [attachments[0].image] else []) + ImagesOf(attachments[1..])
  }

  /** How handling a message ends, and what the bot says back. */
  datatype Handled =
    | NotConnected          // the "Not Connected" embed
    | AudioForwarded
    | TextForwarded
    | Replied(text: string)

  const AudioSendFailed: string := "\U{274C} Failed to send audio to VTuber."
  const AudioConversionFailed: string := "\U{274C} Error processing audio file."
  const TextSendFailed: string := "\U{274C} Failed to send message to VTuber."
  const ProcessingFailed: string := "\U{274C} Error processing your message."

  /** The text-input call a message makes once the attachment loop has run through. */
  function TextCall(content: string, mentioned: bool, userId: string, images: seq<string>): (string, Option<seq<string>>) {
    (NormalizeContent(content, mentioned, userId, images != []), if images != [] then Some(images) else None)
  }

  // ---------------------------------------------------------------------
  // Commands
  // ---------------------------------------------------------------------

  /**
   * The commands the bot registers in `_setup_commands`, plus the `help`
   * command every `commands.Bot` has unless it is switched off. The two
   * help commands only post to Discord.
   */
  datatype Command = ConnectCmd | DisconnectCmd | InterruptCmd | HelpVtuberCmd | HelpCmd

  /** The prefix the bot is built with unless one is given. */
  const DefaultPrefix: string := "!"

  function CommandName(c: Command): string {
    match c
    case ConnectCmd => "connect"
    case DisconnectCmd => "disconnect"
    case InterruptCmd => "interrupt"
    case HelpVtuberCmd => "help_vtuber"
    case HelpCmd => "help"
  }

  /** The command registered under a name; names are matched exactly, case included. */
  function CommandNamed(name: string): (r: Option<Command>)
    ensures r.Some? ==> CommandName(r.value) == name
    ensures forall c :: CommandName(c) == name ==> r == Some(c)
  {
    if name == "connect" then Some(ConnectCmd)
    else if name == "disconnect" then Some(DisconnectCmd)
    else if name == "interrupt" then Some(InterruptCmd)
    else if name == "help_vtuber" then Some(HelpVtuberCmd)
    else if name == "help" then Some(HelpCmd)
    else None
  }

  /** The word right after the prefix: everything up to the first whitespace character. */
  function Invoker(s: string): (r: string)
    ensures |r| <= |s| && r == s[..|r|]
    ensures NoSpace(r)
    ensures |r| == |s| || IsSpace(s[|r|])
  {
    if s == [] || IsSpace(s[0]) then [] else [s[0]] + Invoker(s[1..])
  }

  /**
   * What `process_commands` finds in a message's text: a command only when
   * the text starts with the prefix and the word right after it is a
   * registered name.
   */
  function ParseCommand(content: string, prefix: string): (r: Option<Command>)
    ensures !StartsWith(content, prefix) ==> r.None?
  {
    if StartsWith(content, prefix) then CommandNamed(Invoker(content[|prefix|..])) else None
  }

  /**
   * Parsing gives back the command that was written: the prefix, the
   * command's name, and then the end of the text or whitespace followed by
   * anything at all (the command's arguments, which these commands ignore).
   */
  lemma CommandRoundTrip(prefix: string, c: Command, rest: string)
    requires rest == [] || IsSpace(rest[0])
    ensures ParseCommand(prefix + CommandName(c) + rest, prefix) == Some(c)
  {
    var content := prefix + CommandName(c) + rest;
    assert content[..|prefix|] == prefix;
    var tail := content[|prefix|..];
    assert tail == CommandName(c) + rest;
    InvokerOfWord(CommandName(c), rest);
  }

  lemma {:induction false} InvokerOfWord(w: string, rest: string)
    requires NoSpace(w)
    requires rest == [] || IsSpace(rest[0])
    ensures Invoker(w + rest) == w
    decreases |w|
  {
    if w == [] {
      assert w + rest == rest;
    } else {
      assert (w + rest)[0] == w[0];
      assert (w + rest)[1..] == w[1..] + rest;
      InvokerOfWord(w[1..], rest);
      assert w == [w[0]] + w[1..];
    }
  }

  /**
   * Conversely, a command is found only in a text that starts with the
   * prefix and its name, followed by the end of the text or whitespace.
   */
  lemma CommandSound(content: string, prefix: string)
    requires ParseCommand(content, prefix).Some?
    ensures var word := prefix + CommandName(ParseCommand(content, prefix).value);
      && StartsWith(content, word)
      && (|content| == |word| || IsSpace(content[|word|]))
  {
    var c := ParseCommand(content, prefix).value;
    var tail := content[|prefix|..];
    var w := Invoker(tail);
    assert CommandName(c) == w;
    var word := prefix + w;
    assert content[..|word|] == content[..|prefix|] + tail[..|w|];
  }

  /** A message that starts with the bot's mention, as a mention in a channel does, is no command for the `!` prefix. */
  lemma MentionIsNoCommand(userId: string, rest: string)
    ensures ParseCommand(Mention(userId) + rest, DefaultPrefix).None?
  {
    var content := Mention(userId) + rest;
    assert content[0] == '<';
  }

  datatype ConnectOutcome = AlreadyConnected | Connected | ConnectionFailed

  /** `DiscordVTuberBot`: the registry of one VTuber client per channel id. */
  class DiscordVTuberBot {
    const vtuberWsUrl: string
    /** The bot account's id, in decimal. */
    const userId: string
    const commandPrefix: string
    var channelClients: map<int, VTuberWebSocketClient>

    constructor (vtuberWsUrl: string, userId: string, commandPrefix: string)
      ensures this.vtuberWsUrl == vtuberWsUrl && this.userId == userId && this.commandPrefix == commandPrefix
      ensures channelClients == map[]
    {
      this.vtuberWsUrl := vtuberWsUrl;
      this.userId := userId;
      this.commandPrefix := commandPrefix;
      channelClients := map[];
    }

    /**
     * `connect_to_vtuber`: an already registered channel keeps its client
     * and no client is made; otherwise a fresh client with all four
     * handlers installed is registered exactly when its `connect` succeeds.
     */
    method ConnectToVtuber(channelId: int, succeeds: bool) returns (outcome: ConnectOutcome)
      modifies this`channelClients
      ensures channelId in old(channelClients) ==> outcome == AlreadyConnected && channelClients == old(channelClients)
      ensures channelId !in old(channelClients) && !succeeds ==> outcome == ConnectionFailed && channelClients == old(channelClients)
      ensures channelId !in old(channelClients) && succeeds ==>
                && outcome == Connected
                && channelId in channelClients
                && channelClients == old(channelClients)[channelId := channelClients[channelId]]
                && fresh(channelClients[channelId])
                && channelClients[channelId].wsUrl == vtuberWsUrl
                && channelClients[channelId].CanSend()
                && channelClients[channelId].handlers == Handlers(true, true, true, true)
    {
      if channelId in channelClients {
        return AlreadyConnected;
      }
      var client := new VTuberWebSocketClient(vtuberWsUrl);
      client.SetHandlers(Handlers(true, true, true, true));
      var ok := client.Connect(succeeds);
      if ok {
        channelClients := channelClients[channelId := client];
        return Connected;
      }
      return ConnectionFailed;
    }

    /**
     * `disconnect_from_vtuber`: a registered channel's client is
     * disconnected and its entry removed; an unknown channel changes
     * nothing.
     */
    method DisconnectFromVtuber(channelId: int) returns (found: bool)
      modifies this`channelClients, if channelId in channelClients then {channelClients[channelId]} else {}
      ensures found == (channelId in old(channelClients))
      ensures channelClients == old(channelClients) - {channelId}
      ensures found ==> var c := old(channelClients)[channelId];
        && c.isConnected == (old(c.isConnected) && !c.hasWebsocket)
        && c.hasWebsocket == old(c.hasWebsocket)
        && c.clientUid == old(c.clientUid) && c.handlers == old(c.handlers) && c.frames == old(c.frames) && c.fired == old(c.fired)
    {
      if channelId !in channelClients {
        return false;
      }
      var c := channelClients[channelId];
      c.Disconnect();
      channelClients := channelClients - {channelId};
      return true;
    }

    /** `interrupt_conversation`: only a registered channel sends an interrupt, with nothing heard. */
    method InterruptConversation(channelId: int, fault: Option<nat>) returns (sent: bool)
      modifies if channelId in channelClients then {channelClients[channelId]} else {}
      ensures sent == (channelId in channelClients)
      ensures sent ==> var c := channelClients[channelId];
        && c.frames == old(c.frames) + (if old(c.CanSend()) then Delivered([InterruptSignal("")], fault) else [])
        && c.isConnected == old(c.isConnected) && c.hasWebsocket == old(c.hasWebsocket)
        && c.clientUid == old(c.clientUid) && c.handlers == old(c.handlers) && c.fired == old(c.fired)
    {
      if channelId !in channelClients {
        return false;
      }
      var ok := channelClients[channelId].SendInterrupt("", fault);
      return true;
    }

    /** `stop_bot`: every registered client is disconnected and the registry emptied. */
    method StopBot()
      modifies this`channelClients, channelClients.Values
      ensures channelClients == map[]
      ensures forall c | c in old(channelClients).Values :: c.isConnected == (old(c.isConnected) && !c.hasWebsocket)
      ensures forall c | c in old(channelClients).Values :: c.frames == old(c.frames) && c.hasWebsocket == old(c.hasWebsocket)
      ensures forall c | c in old(channelClients).Values ::
        c.clientUid == old(c.clientUid) && c.handlers == old(c.handlers) && c.fired == old(c.fired)
    {
      var remaining := channelClients.Values;
      while remaining != {}
        invariant remaining <= old(channelClients).Values
        invariant channelClients == old(channelClients)
        invariant forall c | c in old(channelClients).Values - remaining :: c.isConnected == (old(c.isConnected) && !c.hasWebsocket)
        invariant forall c | c in remaining :: c.isConnected == old(c.isConnected)
        invariant forall c | c in old(channelClients).Values :: c.frames == old(c.frames) && c.hasWebsocket == old(c.hasWebsocket)
        invariant forall c | c in old(channelClients).Values ::
          c.clientUid == old(c.clientUid) && c.handlers == old(c.handlers) && c.fired == old(c.fired)
        decreases remaining
      {
        var c :| c in remaining;
        c.Disconnect();
        remaining := remaining - {c};
      }
      channelClients := map[];
    }

    /** The frames `handle_user_message` sends through a registered channel's client. */
    function HandledFrames(canSend: bool, content: string, mentioned: bool, attachments: seq<Attachment>, fault: Option<nat>): seq<Frame> {
      if !canSend then []
      else match ScanAttachments(attachments, [])
        case Failed => []
        case AudioUnreadable => []
        case Audio(samples) => Delivered(AudioFrames(samples), fault)
        case TextWith(images) =>
          var call := TextCall(content, mentioned, userId, images);
          Delivered([TextInputFrame(call.0, call.1)], fault)
    }

    /**
     * `handle_user_message`, for the channel's registry entry. An
     * unregistered channel gets the "Not Connected" reply and no client is
     * touched (nothing else is in the frame). Otherwise the attachments
     * are scanned; audio is sent on its own and ends the handling;
     * otherwise the normalised text, with the images if any, is sent.
     */
    method HandleUserMessage(channelId: int, content: string, mentioned: bool, attachments: seq<Attachment>, fault: Option<nat>)
      returns (handled: Handled)
      modifies if channelId in channelClients then {channelClients[channelId]} else {}
      ensures channelId !in channelClients ==> handled == NotConnected
      ensures channelId in channelClients ==>
        var c := channelClients[channelId];
        match ScanAttachments(attachments, [])
        case Failed => handled == Replied(ProcessingFailed) && c.frames == old(c.frames)
        case AudioUnreadable => handled == Replied(AudioConversionFailed) && c.frames == old(c.frames)
        case Audio(samples) =>
          && c.frames == old(c.frames) + (if old(c.CanSend()) then Delivered(AudioFrames(samples), fault) else [])
          && (handled == AudioForwarded <==> old(c.CanSend()) && Delivered(AudioFrames(samples), fault) == AudioFrames(samples))
          && (handled != AudioForwarded ==> handled == Replied(AudioSendFailed))
        case TextWith(images) =>
          var call := TextCall(content, mentioned, userId, images);
          var frame := TextInputFrame(call.0, call.1);
          && c.frames == old(c.frames) + (if old(c.CanSend()) then Delivered([frame], fault) else [])
          && (handled == TextForwarded <==> old(c.CanSend()) && Delivered([frame], fault) == [frame])
          && (handled != TextForwarded ==> handled == Replied(TextSendFailed))
      ensures channelId in channelClients ==> var c := channelClients[channelId];
        && c.frames == old(c.frames) + HandledFrames(old(c.CanSend()), content, mentioned, attachments, fault)
        && c.isConnected == old(c.isConnected) && c.hasWebsocket == old(c.hasWebsocket)
        && c.clientUid == old(c.clientUid) && c.handlers == old(c.handlers) && c.fired == old(c.fired)
    {
      if channelId !in channelClients {
        return NotConnected;
      }
      var client := channelClients[channelId];
      var images: seq<string> := [];
      var hasAudio := false;
      var rest := attachments;
      while rest != []
        invariant !hasAudio
        invariant ScanAttachments(attachments, []) == ScanAttachments(rest, images)
        decreases |rest|
      {
        var a := rest[0];
        if Typed(a) {
          if StartsWith(a.contentType.value, "image/") {
            if a.fetchFails {
              return Replied(ProcessingFailed);
            }
            images := images + [a.image];
          } else if StartsWith(a.contentType.value, "audio/") {
            hasAudio := true;
            if a.fetchFails {
              return Replied(ProcessingFailed);
            }
            if a.audio.Some? {
              var success := client.SendAudioInput(a.audio.value, fault);
              if !success {
                return Replied(AudioSendFailed);
              }
              return AudioForwarded;
            } else {
              return Replied(AudioConversionFailed);
            }
          }
        }
        rest := rest[1..];
      }
      if !hasAudio {
        var text := content;
        if mentioned {
          text := Strip(Replace(text, Mention(userId), ""));
        }
        if text == "" && images == [] {
          text := Greeting;
        }
        if text != "" || images != [] {
          var success := client.SendTextInput(text, if images != [] then Some(images) else None, fault);
          if !success {
            return Replied(TextSendFailed);
          }
          return TextForwarded;
        }
      }
      assert false;
    }

    /**
     * The command lookup of `process_commands` and the command bodies of
     * `_setup_commands`: messages from bots never run commands;
     * `connect`, `disconnect` and `interrupt` run for the channel of the
     * message, the help commands only post to Discord.
     */
    method DispatchCommand(authorIsBot: bool, channelId: int, content: string, connectSucceeds: bool, fault: Option<nat>)
      returns (command: Option<Command>)
      modifies this`channelClients, if channelId in channelClients then {channelClients[channelId]} else {}
      ensures command == if authorIsBot then None else ParseCommand(content, commandPrefix)
      ensures command != Some(ConnectCmd) && command != Some(DisconnectCmd) ==> channelClients == old(channelClients)
      ensures command == Some(DisconnectCmd) ==> channelClients == old(channelClients) - {channelId}
      ensures command == Some(ConnectCmd) ==>
        if channelId !in old(channelClients) && connectSucceeds then
          && channelId in channelClients
          && channelClients == old(channelClients)[channelId := channelClients[channelId]]
          && fresh(channelClients[channelId])
          && channelClients[channelId].CanSend()
        else channelClients == old(channelClients)
      ensures channelId in old(channelClients) ==> var c := old(channelClients)[channelId];
        && c.frames == old(c.frames) + (if command == Some(InterruptCmd) && old(c.CanSend()) then Delivered([InterruptSignal("")], fault) else [])
        && c.isConnected == (old(c.isConnected) && !(command == Some(DisconnectCmd) && c.hasWebsocket))
        && c.hasWebsocket == old(c.hasWebsocket)
        && c.clientUid == old(c.clientUid) && c.handlers == old(c.handlers) && c.fired == old(c.fired)
    {
      if authorIsBot {
        return None;
      }
      command := ParseCommand(content, commandPrefix);
      if command == Some(ConnectCmd) {
        var outcome := ConnectToVtuber(channelId, connectSucceeds);
      } else if command == Some(DisconnectCmd) {
        var found := DisconnectFromVtuber(channelId);
      } else if command == Some(InterruptCmd) {
        var sent := InterruptConversation(channelId, fault);
      }
    }

    /**
     * `on_message`: the bot's own messages are ignored; any other message
     * is handled when it is a DM or mentions the bot, and is then looked
     * up as a command in every case. A DM `!interrupt` is therefore both
     * forwarded as text and sent as an interrupt, in that order.
     */
    method OnMessage(fromSelf: bool, authorIsBot: bool, isDm: bool, mentioned: bool, channelId: int, content: string,
                     attachments: seq<Attachment>, fault: Option<nat>, connectSucceeds: bool, commandFault: Option<nat>)
      returns (handled: Option<Handled>, command: Option<Command>)
      modifies this`channelClients, if channelId in channelClients then {channelClients[channelId]} else {}
      ensures handled.Some? <==> !fromSelf && (isDm || mentioned)
      ensures command == if fromSelf || authorIsBot then None else ParseCommand(content, commandPrefix)
      ensures command != Some(ConnectCmd) && command != Some(DisconnectCmd) ==> channelClients == old(channelClients)
      ensures command == Some(DisconnectCmd) ==> channelClients == old(channelClients) - {channelId}
      ensures command == Some(ConnectCmd) ==>
        if channelId !in old(channelClients) && connectSucceeds then
          && channelId in channelClients
          && channelClients == old(channelClients)[channelId := channelClients[channelId]]
          && fresh(channelClients[channelId])
          && channelClients[channelId].CanSend()
        else channelClients == old(channelClients)
      ensures channelId in old(channelClients) ==> var c := old(channelClients)[channelId];
        && c.frames == old(c.frames)
             + (if handled.Some? then HandledFrames(old(c.CanSend()), content, mentioned, attachments, fault) else [])
             + (if command == Some(InterruptCmd) && old(c.CanSend()) then Delivered([InterruptSignal("")], commandFault) else [])
        && c.isConnected == (old(c.isConnected) && !(command == Some(DisconnectCmd) && c.hasWebsocket))
        && c.hasWebsocket == old(c.hasWebsocket)
        && c.clientUid == old(c.clientUid) && c.handlers == old(c.handlers) && c.fired == old(c.fired)
    {
      if fromSelf {
        return None, None;
      }
      handled := None;
      if isDm || mentioned {
        var h := HandleUserMessage(channelId, content, mentioned, attachments, fault);
        handled := Some(h);
      }
      command := DispatchCommand(authorIsBot, channelId, content, connectSucceeds, commandFault);
    }
  }
}
