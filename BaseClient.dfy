/**
 * The WebSocket client the chat bots use to talk to the VTuber server
 * (bot/base_client.py): which inbound messages reach which callback, what
 * the outbound frames look like, and the connected guard in front of every
 * send.
 *
 * An inbound message is the decoded JSON object as a string map. The
 * socket is reduced to whether one exists; the frames that went out are
 * recorded in `frames` and the callbacks that fired in `fired`. Whether a
 * send raises is a parameter of each send method.
 */
module BaseClient {
  import opened Common

  const DefaultUrl: string := "ws://localhost:12393/client-ws"

  // ---------------------------------------------------------------------
  // Inbound messages
  // ---------------------------------------------------------------------

  /** Which of the four `on_*` handlers the owner has installed. */
  datatype Handlers = Handlers(audio: bool, text: bool, error: bool, established: bool)

  /** One awaited call of an installed handler, with its arguments. */
  datatype Callback =
    | AudioResponse(audio: string, data: Payload)
    | TextResponse(text: string)
    | ErrorRaised(message: string)
    | ConnectionEstablished(clientUid: Option<string>)

  /** What one inbound message does: possibly a new `client_uid`, and the handler calls it makes. */
  datatype Reaction = Reaction(newUid: Option<Option<string>>, fired: seq<Callback>)

  /** Server chatter that is never forwarded as a text response. */
  const Placeholders: seq<string> := ["Connection established", "Thinking..."]

  /** `_handle_server_message`, dispatching on the message's `type`. */
  function Dispatch(h: Handlers, data: Payload): Reaction {
    match Lookup(data, "type")
    case Some("set-model-and-conf") =>
      var uid := Lookup(data, "client_uid");
      Reaction(Some(uid), if h.established then [ConnectionEstablished(uid)] else [])
    case Some("full-text") =>
      var text := Get(data, "text", "");
      Reaction(None, if h.text && text !in Placeholders then [TextResponse(text)] else [])
    case Some("audio") =>
      Reaction(None, if h.audio then [AudioResponse(Get(data, "audio", ""), data)] else [])
    case Some("error") =>
      Reaction(None, if h.error then [ErrorRaised(Get(data, "message", "Unknown error"))] else [])
    case _ => Reaction(None, [])
  }

  /**
   * The dispatch rules: only `set-model-and-conf` touches the client id,
   * and sets it to the message's `client_uid`, absent or not; a full text
   * is forwarded unless it is a placeholder; an error is forwarded with
   * `"Unknown error"` when it has no message; any other type is ignored;
   * no message calls more than one handler, nor one that is not installed.
   */
  lemma DispatchRules(h: Handlers, data: Payload)
    ensures var r := Dispatch(h, data);
      && (r.newUid.Some? <==> Lookup(data, "type") == Some("set-model-and-conf"))
      && (r.newUid.Some? ==> r.newUid.value == Lookup(data, "client_uid"))
      && |r.fired| <= 1
      && (Lookup(data, "type") == Some("full-text") ==>
            (r.fired == [TextResponse(Get(data, "text", ""))] <==> h.text && Get(data, "text", "") !in Placeholders))
      && (Lookup(data, "type") == Some("error") && h.error ==>
            r.fired == [ErrorRaised(if "message" in data then data["message"] else "Unknown error")])
      && (Lookup(data, "type") !in {Some("set-model-and-conf"), Some("full-text"), Some("audio"), Some("error")} ==>
            r == Reaction(None, []))
      && (forall c :: c in r.fired ==> Installed(h, c))
  {
  }

  predicate Installed(h: Handlers, c: Callback) {
    match c
    case AudioResponse(_, _) => h.audio
    case TextResponse(_) => h.text
    case ErrorRaised(_) => h.error
    case ConnectionEstablished(_) => h.established
  }

  /** The previous-uid-or-update rule: the id after a reaction. */
  function NextUid(uid: Option<string>, r: Reaction): Option<string> {
    if r.newUid.Some? then r.newUid.value else uid
  }

  /** The client id and handler calls after a run of inbound messages; `None` stands for invalid JSON. */
  function Replay(h: Handlers, uid: Option<string>, fired: seq<Callback>, messages: seq<Option<Payload>>): (Option<string>, seq<Callback>)
    decreases |messages|
  {
    if messages == [] then (uid, fired)
    else if messages[0].None? then Replay(h, uid, fired, messages[1..])
    else
      var r := Dispatch(h, messages[0].value);
      Replay(h, NextUid(uid, r), fired + r.fired, messages[1..])
  }

  /** Invalid JSON frames are skipped without a trace. */
  lemma {:induction false} InvalidFramesIgnored(h: Handlers, uid: Option<string>, fired: seq<Callback>, messages: seq<Option<Payload>>)
    ensures Replay(h, uid, fired, messages) == Replay(h, uid, fired, Valid(messages))
    decreases |messages|
  {
    if messages != [] {
      var v := Valid(messages);
      if messages[0].None? {
        assert v == Valid(messages[1..]);
        InvalidFramesIgnored(h, uid, fired, messages[1..]);
      } else {
        assert v == [messages[0]] + Valid(messages[1..]);
        assert v[1..] == Valid(messages[1..]);
        var r := Dispatch(h, messages[0].value);
        InvalidFramesIgnored(h, NextUid(uid, r), fired + r.fired, messages[1..]);
      }
    }
  }

  function Valid(messages: seq<Option<Payload>>): (r: seq<Option<Payload>>)
    ensures forall k :: 0 <= k < |r| ==> r[k].Some?
    ensures |r| <= |messages|
  {
    if messages == [] then []
    else (if messages[0].Some? then [messages[0]] else []) + Valid(messages[1..])
  }

  /** How the `async for` over the socket ends. */
  datatype ListenEnd =
    | ClosedNormally   // iteration ends without an exception
    | ConnectionClosed // `websockets.exceptions.ConnectionClosed`
    | ListenerFailed   // any other exception

  // ---------------------------------------------------------------------
  // Outbound frames
  // ---------------------------------------------------------------------

  datatype ImageItem = ImageItem(source: string, data: string, mimeType: string)

  /** The JSON objects the client sends, before `json.dumps`; `images` is `None` when the key is absent. */
  datatype Frame =
    | TextInput(text: string, images: Option<seq<ImageItem>>)
    | MicAudioData(audio: seq<real>)
    | MicAudioEnd
    | InterruptSignal(text: string)

  function UploadItem(img: string): ImageItem {
    ImageItem("upload", img, "image/jpeg")
  }

  /**
   * The `text-input` object: the text, and an `images` key only when the
   * image list is present and non-empty, holding one upload item per image
   * in the same order.
   */
  function TextInputFrame(text: string, images: Option<seq<string>>): (f: Frame)
    ensures f.TextInput? && f.text == text
    ensures f.images.Some? <==> images.Some? && images.value != []
    ensures f.images.Some? ==>
              |f.images.value| == |images.value|
              && forall k :: 0 <= k < |images.value| ==> f.images.value[k] == ImageItem("upload", images.value[k], "image/jpeg")
  {
    if images.Some? && images.value != [] then
      TextInput(text, Some(seq(|images.value|, k requires 0 <= k < |images.value| => UploadItem(images.value[k]))))
    else TextInput(text, None)
  }

  /** The frames of one audio input, in the order they are sent. */
  function AudioFrames(audio: seq<real>): seq<Frame> {
    [MicAudioData(audio), MicAudioEnd]
  }

  /**
   * A run of sends that raises on its `k`-th item (`fault == Some(k)`)
   * delivers what comes before it: the first `k` items, or all of them.
   */
  function Delivered<T>(items: seq<T>, fault: Option<nat>): (r: seq<T>)
    ensures |r| <= |items| && r == items[..|r|]
    ensures |r| == |items| <==> fault.None? || fault.value >= |items|
  {
    if fault.Some? && fault.value < |items| then items[..fault.value] else items
  }

  /** `VTuberWebSocketClient`. */
  class VTuberWebSocketClient {
    const wsUrl: string
    var hasWebsocket: bool
    var clientUid: Option<string>
    var isConnected: bool
    var handlers: Handlers
    /** Every frame that went out on the socket, in order. */
    var frames: seq<Frame>
    /** Every handler call made, in order. */
    var fired: seq<Callback>

    constructor (wsUrl: string)
      ensures this.wsUrl == wsUrl && !hasWebsocket && clientUid.None? && !isConnected
      ensures handlers == Handlers(false, false, false, false) && frames == [] && fired == []
    {
      this.wsUrl := wsUrl;
      hasWebsocket := false;
      clientUid := None;
      isConnected := false;
      handlers := Handlers(false, false, false, false);
      frames := [];
      fired := [];
    }

    /** The guard `not self.is_connected or not self.websocket`, negated. */
    predicate CanSend()
      reads this
    {
      isConnected && hasWebsocket
    }

    method SetHandlers(h: Handlers)
      modifies this`handlers
      ensures handlers == h
    {
      handlers := h;
    }

    /**
     * `connect`: on success a socket is open and the client connected; on
     * failure it is not connected and the old socket reference, if any,
     * is kept.
     */
    method Connect(succeeds: bool) returns (ok: bool)
      modifies this`hasWebsocket, this`isConnected
      ensures ok == succeeds && isConnected == succeeds
      ensures hasWebsocket == (succeeds || old(hasWebsocket))
    {
      if succeeds {
        hasWebsocket := true;
        isConnected := true;
        return true;
      }
      isConnected := false;
      return false;
    }

    /** `disconnect`: clears `is_connected` only when there is a socket, and keeps the reference. */
    method Disconnect()
      modifies this`isConnected
      ensures isConnected == (old(isConnected) && !hasWebsocket)
    {
      if hasWebsocket {
        isConnected := false;
      }
    }

    /** `_handle_server_message` for one decoded message. */
    method HandleServerMessage(data: Payload)
      modifies this`clientUid, this`fired
      ensures var r := Dispatch(handlers, data);
        clientUid == NextUid(old(clientUid), r) && fired == old(fired) + r.fired
    {
      var msgType := Lookup(data, "type");
      if msgType == Some("set-model-and-conf") {
        clientUid := Lookup(data, "client_uid");
        if handlers.established {
          fired := fired + [ConnectionEstablished(clientUid)];
        }
      } else if msgType == Some("full-text") {
        var text := Get(data, "text", "");
        if handlers.text && text !in Placeholders {
          fired := fired + [TextResponse(text)];
        }
      } else if msgType == Some("audio") {
        if handlers.audio {
          fired := fired + [AudioResponse(Get(data, "audio", ""), data)];
        }
      } else if msgType == Some("error") {
        var errorMsg := Get(data, "message", "Unknown error");
        if handlers.error {
          fired := fired + [ErrorRaised(errorMsg)];
        }
      }
    }

    /**
     * `_listen_for_messages`: every frame that decodes is dispatched in
     * order, the others are skipped; a listener that ends in an exception
     * leaves the client disconnected, one whose iteration simply ends does
     * not touch the flag.
     */
    method Listen(messages: seq<Option<Payload>>, end: ListenEnd)
      modifies this`clientUid, this`fired, this`isConnected
      ensures (clientUid, fired) == Replay(handlers, old(clientUid), old(fired), messages)
      ensures isConnected == (old(isConnected) && end.ClosedNormally?)
    {
      var rest := messages;
      while rest != []
        invariant Replay(handlers, old(clientUid), old(fired), messages) == Replay(handlers, clientUid, fired, rest)
        invariant isConnected == old(isConnected)
        decreases |rest|
      {
        if rest[0].Some? {
          HandleServerMessage(rest[0].value);
        }
        rest := rest[1..];
      }
      if !end.ClosedNormally? {
        isConnected := false;
      }
    }

    /** One `websocket.send`; a raising send puts nothing on the wire. */
    method Send(f: Frame, raises: bool)
      modifies this`frames
      ensures frames == old(frames) + (if raises then [] else [f])
    {
      if !raises {
        frames := frames + [f];
      }
    }

    /**
     * `send_text_input`: nothing is sent and the answer is false when not
     * connected; otherwise the text-input frame is sent, and the answer is
     * whether the send went through.
     */
    method SendTextInput(text: string, images: Option<seq<string>>, fault: Option<nat>) returns (ok: bool)
      modifies this`frames
      ensures !CanSend() ==> !ok && frames == old(frames)
      ensures CanSend() ==>
                frames == old(frames) + Delivered([TextInputFrame(text, images)], fault)
                && (ok <==> Delivered([TextInputFrame(text, images)], fault) == [TextInputFrame(text, images)])
    {
      if !isConnected || !hasWebsocket {
        return false;
      }
      var message := TextInput(text, None);
      if images.Some? && images.value != [] {
        var items: seq<ImageItem> := [];
        for k := 0 to |images.value|
          invariant items == seq(k, j requires 0 <= j < k => UploadItem(images.value[j]))
        {
          items := items + [UploadItem(images.value[k])];
        }
        message := message.(images := Some(items));
      }
      assert message == TextInputFrame(text, images);
      var raises := fault == Some(0);
      Send(message, raises);
      ok := !raises;
    }

    /**
     * `send_audio_input`: when connected, the audio frame and then the end
     * frame, both inside one `try`, so a failure of either answers false
     * and a failure of the second leaves the first sent.
     */
    method SendAudioInput(audio: seq<real>, fault: Option<nat>) returns (ok: bool)
      modifies this`frames
      ensures !CanSend() ==> !ok && frames == old(frames)
      ensures CanSend() ==>
                frames == old(frames) + Delivered(AudioFrames(audio), fault)
                && (ok <==> Delivered(AudioFrames(audio), fault) == AudioFrames(audio))
    {
      if !isConnected || !hasWebsocket {
        return false;
      }
      if fault == Some(0) {
        Send(MicAudioData(audio), true);
        return false;
      }
      Send(MicAudioData(audio), false);
      if fault == Some(1) {
        Send(MicAudioEnd, true);
        return false;
      }
      Send(MicAudioEnd, false);
      ok := true;
    }

    /** `send_interrupt`: when connected, one `interrupt-signal` frame with what was heard. */
    method SendInterrupt(heardResponse: string, fault: Option<nat>) returns (ok: bool)
      modifies this`frames
      ensures !CanSend() ==> !ok && frames == old(frames)
      ensures CanSend() ==>
                frames == old(frames) + Delivered([InterruptSignal(heardResponse)], fault)
                && (ok <==> Delivered([InterruptSignal(heardResponse)], fault) == [InterruptSignal(heardResponse)])
    {
      if !isConnected || !hasWebsocket {
        return false;
      }
      var raises := fault == Some(0);
      Send(InterruptSignal(heardResponse), raises);
      ok := !raises;
    }
  }

  /** An audio input that goes through is exactly two frames: the samples, then the end marker. */
  lemma AudioIsTwoFrames(audio: seq<real>, fault: Option<nat>)
    ensures var d := Delivered(AudioFrames(audio), fault);
      (d == AudioFrames(audio) ==> |d| == 2 && d[0] == MicAudioData(audio) && d[1] == MicAudioEnd)
      && (d != AudioFrames(audio) ==> MicAudioEnd !in d)
  {
  }
}
