/**
 * The per-call WebSocket bridge of twilio-media-stream/index.ts: one Twilio
 * media stream on one side, one voice-agent connection on the other. Each
 * message handler is one atomic step of the `Session` object; the two
 * sockets are reduced to their states and to logs of the frames sent to
 * each peer. Network results (the signed-URL fetch, a tool's HTTP reply)
 * are inputs, and audio payloads are the binary strings base64 stands for.
 */
module Bridge {
  import opened Wrappers
  import opened JsonValues
  import MuLaw
  import AudioExtract
  import ToolDispatch

  // ---------------------------------------------------------------------
  // Payload strings

  /** The binary string of a byte sequence: one char per byte. */
  function BytesToBinary(b: seq<MuLaw.Byte>): (s: string)
    ensures |s| == |b|
    ensures forall i :: 0 <= i < |b| ==> s[i] as int == b[i]
  {
    seq(|b|, i requires 0 <= i < |b| => b[i] as char)
  }

  /** The bytes of a binary string; `None` when some char is not a byte (decoding throws). */
  function BinaryToBytes(s: string): (r: Option<seq<MuLaw.Byte>>)
    ensures r.Some? <==> forall i :: 0 <= i < |s| ==> s[i] as int < 256
    ensures r.Some? ==> |r.value| == |s| && forall i :: 0 <= i < |s| ==> r.value[i] == s[i] as int
  {
    if forall i :: 0 <= i < |s| ==> s[i] as int < 256
    then Some(seq(|s|, i requires 0 <= i < |s| && s[i] as int < 256 => s[i] as int))
    else None
  }

  lemma BinaryRoundTrip(b: seq<MuLaw.Byte>)
    ensures BinaryToBytes(BytesToBinary(b)) == Some(b)
  {
    var s := BytesToBinary(b);
    assert forall i :: 0 <= i < |s| ==> s[i] as int < 256;
    assert BinaryToBytes(s).value == b;
  }

  // ---------------------------------------------------------------------
  // Frames and socket states

  datatype SocketState = NotCreated | Connecting | Open | Closed

  /** What the bridge sends to the voice agent. */
  datatype AgentFrame =
    | InitData(clientName: Json, invoiceNumber: Json, amount: Json, dueDate: Json, clientEmail: Json)
    | UserAudio(chunk: Option<Json>)
    | ToolResultFrame(result: ToolDispatch.ToolResult)

  /** A `media` event sent to Twilio. */
  datatype TwilioFrame = MediaFrame(streamSid: Json, payload: string)

  /** The `conversation_initiation_client_data` variables, with their per-field defaults. */
  function InitFrame(custom: Json): (f: AgentFrame)
    ensures f.InitData?
    ensures Truthy(Get(Some(custom), "clientName")) ==> Some(f.clientName) == Get(Some(custom), "clientName")
    ensures !Truthy(Get(Some(custom), "clientName")) ==> f.clientName == JStr("the client")
    ensures Truthy(Get(Some(custom), "invoiceNumber")) ==> Some(f.invoiceNumber) == Get(Some(custom), "invoiceNumber")
    ensures !Truthy(Get(Some(custom), "invoiceNumber")) ==> f.invoiceNumber == JStr("on file")
    ensures Truthy(Get(Some(custom), "amount")) ==> Some(f.amount) == Get(Some(custom), "amount")
    ensures !Truthy(Get(Some(custom), "amount")) ==> f.amount == JStr("an outstanding amount")
    ensures Truthy(Get(Some(custom), "dueDate")) ==> Some(f.dueDate) == Get(Some(custom), "dueDate")
    ensures !Truthy(Get(Some(custom), "dueDate")) ==> f.dueDate == JStr("recently")
    ensures Truthy(Get(Some(custom), "clientEmail")) ==> Some(f.clientEmail) == Get(Some(custom), "clientEmail")
    ensures !Truthy(Get(Some(custom), "clientEmail")) ==> f.clientEmail == JStr("not available")
  {
    InitData(
      Or(Get(Some(custom), "clientName"), Some(JStr("the client"))).value,
      Or(Get(Some(custom), "invoiceNumber"), Some(JStr("on file"))).value,
      Or(Get(Some(custom), "amount"), Some(JStr("an outstanding amount"))).value,
      Or(Get(Some(custom), "dueDate"), Some(JStr("recently"))).value,
      Or(Get(Some(custom), "clientEmail"), Some(JStr("not available"))).value)
  }

  // ---------------------------------------------------------------------
  // Audio in both directions

  /**
   * The `user_audio_chunk` made from a Twilio `media` event, or `None` when
   * building it throws (`msg.media` missing, or a payload that does not decode).
   */
  function InboundChunk(useConversion: bool, msg: Json): (r: Option<Option<Json>>)
    ensures AccessThrows(Get(Some(msg), "media")) ==> r.None?
    ensures !useConversion && !AccessThrows(Get(Some(msg), "media")) ==>
      r == Some(Get(Get(Some(msg), "media"), "payload"))
  {
    var media := Get(Some(msg), "media");
    if AccessThrows(media) then None
    else
      var payload := Get(media, "payload");
      if !useConversion then Some(payload)
      else match payload
        case Some(JStr(s)) =>
          (match BinaryToBytes(s)
           case Some(raw) =>
             MuLaw.UpsampledRange(raw);
             Some(Some(JStr(BytesToBinary(MuLaw.PcmBytes(MuLaw.Upsampled(raw))))))
           case None => None)
        case _ => None
  }

  /** What the audio part of an agent message does. */
  datatype AudioEffect = NoAudio | Forward(payload: string) | AudioThrows

  /**
   * Lines 227-243: audio is forwarded only when the message carries some and
   * the stream id is set; with conversion on, an odd byte count throws.
   */
  function AudioOut(useConversion: bool, streamSid: Option<Json>, data: Json): (e: AudioEffect)
    ensures AudioExtract.FirstAudio(data, AudioExtract.Candidates()).None? || !Truthy(streamSid) ==> e.NoAudio?
    ensures !useConversion && AudioExtract.FirstAudio(data, AudioExtract.Candidates()).Some? && Truthy(streamSid) ==>
      e == Forward(AudioExtract.FirstAudio(data, AudioExtract.Candidates()).value)
  {
    var audio := AudioExtract.FirstAudio(data, AudioExtract.Candidates());
    if audio.None? || !Truthy(streamSid) then NoAudio
    else if !useConversion then Forward(audio.value)
    else match BinaryToBytes(audio.value)
      case None => AudioThrows
      case Some(pcm) =>
        if |pcm| % 2 == 1 then AudioThrows
        else Forward(BytesToBinary(MuLaw.Decimated(MuLaw.PcmSamples(pcm))))
  }

  /** The three places the agent's output format is looked for, joined with `||`. */
  function OutputFormat(data: Json): Option<Json>
  {
    var event := Get(Some(data), "conversation_initiation_metadata_event");
    Or(Or(Get(event, "agent_output_audio_format"), Get(Get(event, "audio"), "output_format")),
       Get(Some(data), "agent_output_audio_format"))
  }

  /** The agent announced μ-law 8 kHz output, which switches conversion off. */
  predicate ReportsMulaw(data: Json)
  {
    IsString(Get(Some(data), "type"), "conversation_initiation_metadata")
    && IsString(OutputFormat(data), "ulaw_8000")
  }

  /** `data.client_tool_call || {}` */
  function ToolCallOf(data: Json): Option<Json>
  {
    Or(Get(Some(data), "client_tool_call"), Some(JObj(map[])))
  }

  predicate IsToolCall(data: Json)
  {
    IsString(Get(Some(data), "type"), "client_tool_call")
  }

  /** The tool result an agent message makes the bridge send. */
  function ToolFrames(data: Json, custom: Json, outcome: ToolDispatch.Outcome): (fs: seq<AgentFrame>)
    ensures |fs| <= 1
  {
    var call := ToolCallOf(data);
    if !IsToolCall(data) then []
    else match ToolDispatch.Dispatch(Get(call, "tool_name"), Get(call, "tool_call_id"), Get(call, "parameters"), custom, outcome)
      case Some(r) => [ToolResultFrame(r)]
      case None => []
  }

  /** The downstream HTTP request an agent message makes the bridge send. */
  function ToolRequests(data: Json, custom: Json): (rs: seq<ToolDispatch.ToolRequest>)
    ensures |rs| <= 1
  {
    var call := ToolCallOf(data);
    if !IsToolCall(data) then []
    else match ToolDispatch.RequestOf(Get(call, "tool_name"), Get(call, "parameters"), custom)
      case Some(r) => [r]
      case None => []
  }

  // ---------------------------------------------------------------------
  // The session

  /**
   * How the signed-URL request of `start` ends: the reply was not ok, a
   * step threw (the fetch, `res.text()` or `res.json()` rejected, or
   * `new WebSocket` refused the URL), or an agent socket was created.
   */
  datatype SignedUrl = Refused | Threw | Connected

  class Session {
    var streamSid: Option<Json>
    var useConversion: bool
    var agent: SocketState
    var twilioOpen: bool
    var custom: Json
    var toAgent: seq<AgentFrame>
    var toTwilio: seq<TwilioFrame>
    var requests: seq<ToolDispatch.ToolRequest>

    /**
     * Nothing reaches the agent before its socket exists, the first frame it
     * gets is the init data, and every media frame to Twilio names a stream.
     */
    predicate Valid()
      reads this
    {
      (agent.NotCreated? ==> toAgent == [])
      && (agent.Open? ==> toAgent != [])
      && (toAgent != [] ==> toAgent[0].InitData?)
      && (forall i :: 0 <= i < |toTwilio| ==> Truthy(Some(toTwilio[i].streamSid)))
    }

    /** The state right after the WebSocket upgrade (lines 119-121). */
    constructor ()
      ensures Valid()
      ensures streamSid == None && useConversion && agent == NotCreated && twilioOpen
      ensures custom == JObj(map[]) && toAgent == [] && toTwilio == [] && requests == []
    {
      streamSid := None;
      useConversion := true;
      agent := NotCreated;
      twilioOpen := true;
      custom := JObj(map[]);
      toAgent := [];
      toTwilio := [];
      requests := [];
    }

    /**
     * `start`: records the stream id, then asks for the agent's signed
     * URL. A reply that is not ok closes the Twilio socket with no agent
     * socket opened; a step that throws ends in the handler's `catch` with
     * both sockets as they were; otherwise a new agent socket is
     * connecting. The custom parameters are a constant of this `start`
     * that only its own socket's handlers see, so they become the
     * session's only with that socket.
     */
    method Start(msg: Json, signedUrl: SignedUrl)
      requires Valid()
      modifies this
      ensures Valid()
      ensures useConversion == old(useConversion)
      ensures toAgent == old(toAgent) && toTwilio == old(toTwilio) && requests == old(requests)
      ensures AccessThrows(Get(Some(msg), "start")) ==>
        streamSid == old(streamSid) && custom == old(custom) && agent == old(agent) && twilioOpen == old(twilioOpen)
      ensures !AccessThrows(Get(Some(msg), "start")) ==>
        streamSid == Get(Get(Some(msg), "start"), "streamSid")
        && (signedUrl.Connected? ==>
              agent == Connecting && twilioOpen == old(twilioOpen)
              && custom == Or(Get(Get(Some(msg), "start"), "customParameters"), Some(JObj(map[]))).value)
        && (signedUrl.Refused? ==> agent == old(agent) && !twilioOpen && custom == old(custom))
        && (signedUrl.Threw? ==> agent == old(agent) && twilioOpen == old(twilioOpen) && custom == old(custom))
    {
      var start := Get(Some(msg), "start");
      if AccessThrows(start) {
        return;
      }
      streamSid := Get(start, "streamSid");
      var customParams := Or(Get(start, "customParameters"), Some(JObj(map[]))).value;
      match signedUrl {
        case Refused =>
          twilioOpen := false;
        case Threw =>
        case Connected =>
          agent := Connecting;
          custom := customParams;
      }
    }

    /** The agent socket opened: the init data goes out first. */
    method AgentOpen()
      requires Valid() && agent.Connecting?
      modifies this
      ensures Valid()
      ensures agent == Open
      ensures toAgent == old(toAgent) + [InitFrame(custom)]
      ensures streamSid == old(streamSid) && useConversion == old(useConversion) && twilioOpen == old(twilioOpen)
      ensures custom == old(custom) && toTwilio == old(toTwilio) && requests == old(requests)
    {
      agent := Open;
      toAgent := toAgent + [InitFrame(custom)];
    }

    /** `media`: forwarded to the agent only while its socket is open. */
    method Media(msg: Json)
      requires Valid()
      modifies this
      ensures Valid()
      ensures streamSid == old(streamSid) && useConversion == old(useConversion) && agent == old(agent)
      ensures twilioOpen == old(twilioOpen) && custom == old(custom)
      ensures toTwilio == old(toTwilio) && requests == old(requests)
      ensures toAgent == old(toAgent) + (
        if agent.Open? && InboundChunk(useConversion, msg).Some?
        then [UserAudio(InboundChunk(useConversion, msg).value)] else [])
    {
      if !agent.Open? {
        return;
      }
      var media := Get(Some(msg), "media");
      if AccessThrows(media) {
        return;
      }
      var payload := Get(media, "payload");
      if !useConversion {
        toAgent := toAgent + [UserAudio(payload)];
        return;
      }
      if payload.Some? && payload.value.JStr? {
        var bytes := BinaryToBytes(payload.value.s);
        if bytes.Some? {
          var pcm := MuLaw.MulawToLinear16k(bytes.value);
          toAgent := toAgent + [UserAudio(Some(JStr(BytesToBinary(pcm))))];
        }
      }
    }

    /** `elevenLabsWs?.close()`: closes the agent socket if there is one. */
    method CloseAgent()
      requires Valid()
      modifies this
      ensures Valid()
      ensures agent == if old(agent).NotCreated? then NotCreated else Closed
      ensures streamSid == old(streamSid) && useConversion == old(useConversion) && twilioOpen == old(twilioOpen)
      ensures custom == old(custom) && toAgent == old(toAgent) && toTwilio == old(toTwilio) && requests == old(requests)
    {
      if !agent.NotCreated? {
        agent := Closed;
      }
    }

    /** `stop` closes the agent socket and nothing else. */
    method Stop()
      requires Valid()
      modifies this
      ensures Valid()
      ensures agent == if old(agent).NotCreated? then NotCreated else Closed
      ensures streamSid == old(streamSid) && useConversion == old(useConversion) && twilioOpen == old(twilioOpen)
      ensures custom == old(custom) && toAgent == old(toAgent) && toTwilio == old(toTwilio) && requests == old(requests)
    {
      CloseAgent();
    }

    /**
     * The agent's socket closed or failed on its own (lines 371-377): the
     * handlers only log, but the socket is no longer OPEN, so later media
     * is not forwarded. Nothing else changes.
     */
    method AgentClosed()
      requires Valid()
      modifies this
      ensures Valid()
      ensures agent == if old(agent).NotCreated? then NotCreated else Closed
      ensures streamSid == old(streamSid) && useConversion == old(useConversion) && twilioOpen == old(twilioOpen)
      ensures custom == old(custom) && toAgent == old(toAgent) && toTwilio == old(toTwilio) && requests == old(requests)
    {
      if !agent.NotCreated? {
        agent := Closed;
      }
    }

    /** The Twilio socket closed: the agent socket is closed too. */
    method TwilioClose()
      requires Valid()
      modifies this
      ensures Valid()
      ensures !twilioOpen
      ensures agent == if old(agent).NotCreated? then NotCreated else Closed
      ensures streamSid == old(streamSid) && useConversion == old(useConversion)
      ensures custom == old(custom) && toAgent == old(toAgent) && toTwilio == old(toTwilio) && requests == old(requests)
    {
      twilioOpen := false;
      CloseAgent();
    }

    /**
     * One Twilio message, dispatched on its `event` field; other events and
     * a message without one change nothing.
     */
    method OnTwilioMessage(msg: Json, signedUrl: SignedUrl)
      requires Valid() && twilioOpen
      modifies this
      ensures Valid()
      ensures old(useConversion) == useConversion
      ensures toTwilio == old(toTwilio) && requests == old(requests)
      ensures IsString(Get(Some(msg), "event"), "start") ==> toAgent == old(toAgent)
      ensures IsString(Get(Some(msg), "event"), "start") && AccessThrows(Get(Some(msg), "start")) ==>
        streamSid == old(streamSid) && custom == old(custom) && agent == old(agent) && twilioOpen
      ensures IsString(Get(Some(msg), "event"), "start") && !AccessThrows(Get(Some(msg), "start")) ==>
        streamSid == Get(Get(Some(msg), "start"), "streamSid")
        && (signedUrl.Connected? ==>
              agent == Connecting && twilioOpen
              && custom == Or(Get(Get(Some(msg), "start"), "customParameters"), Some(JObj(map[]))).value)
        && (signedUrl.Refused? ==> agent == old(agent) && !twilioOpen && custom == old(custom))
        && (signedUrl.Threw? ==> agent == old(agent) && twilioOpen && custom == old(custom))
      ensures (!IsString(Get(Some(msg), "event"), "start") && !IsString(Get(Some(msg), "event"), "media")
        && !IsString(Get(Some(msg), "event"), "stop")) ==>
        streamSid == old(streamSid) && agent == old(agent) && twilioOpen && custom == old(custom)
        && toAgent == old(toAgent)
      ensures IsString(Get(Some(msg), "event"), "stop") ==>
        agent == (if old(agent).NotCreated? then NotCreated else Closed) && toAgent == old(toAgent)
        && streamSid == old(streamSid) && custom == old(custom)
      ensures IsString(Get(Some(msg), "event"), "media") ==>
        streamSid == old(streamSid) && custom == old(custom) && agent == old(agent)
        && toAgent == old(toAgent) + (
          if old(agent).Open? && InboundChunk(old(useConversion), msg).Some?
          then [UserAudio(InboundChunk(old(useConversion), msg).value)] else [])
      ensures !IsString(Get(Some(msg), "event"), "start") ==> twilioOpen
    {
      var event := Get(Some(msg), "event");
      if IsString(event, "start") {
        Start(msg, signedUrl);
      } else if IsString(event, "media") {
        Media(msg);
      } else if IsString(event, "stop") {
        Stop();
      }
    }

    /**
     * The audio part of an agent message (lines 222-243): the media frame
     * sent to Twilio, if any, and whether the handler threw (a payload that
     * does not convert, or a send on a closed Twilio socket).
     */
    method ForwardAudio(data: Json) returns (threw: bool)
      requires Valid()
      modifies this
      ensures Valid()
      ensures streamSid == old(streamSid) && useConversion == old(useConversion) && agent == old(agent)
      ensures twilioOpen == old(twilioOpen) && custom == old(custom) && toAgent == old(toAgent) && requests == old(requests)
      ensures var e := AudioOut(useConversion, streamSid, data);
        threw == (e.AudioThrows? || (e.Forward? && !twilioOpen))
        && toTwilio == old(toTwilio) + (if e.Forward? && twilioOpen then [MediaFrame(streamSid.value, e.payload)] else [])
    {
      threw := false;
      var audio := AudioExtract.ExtractAudio(data);
      if audio.None? || !Truthy(streamSid) {
        return;
      }
      var payload := audio.value;
      if useConversion {
        var pcm := BinaryToBytes(audio.value);
        if pcm.None? {
          threw := true;
          return;
        }
        var mulaw := MuLaw.Linear16kToMulaw(pcm.value);
        if mulaw.None? {
          threw := true;
          return;
        }
        payload := BytesToBinary(mulaw.value);
      }
      if !twilioOpen {
        threw := true;
        return;
      }
      toTwilio := toTwilio + [MediaFrame(streamSid.value, payload)];
    }

    /**
     * One message from the agent (lines 219-369): its audio goes to Twilio,
     * a `ulaw_8000` format report switches conversion off, and a tool call
     * is answered. A throw in the audio part skips the rest of the handler.
     */
    method OnAgentMessage(data: Json, outcome: ToolDispatch.Outcome)
      requires Valid() && agent.Open?
      modifies this
      ensures Valid()
      ensures streamSid == old(streamSid) && agent == old(agent) && twilioOpen == old(twilioOpen) && custom == old(custom)
      ensures var e := AudioOut(old(useConversion), streamSid, data);
        toTwilio == old(toTwilio) + (if e.Forward? && twilioOpen then [MediaFrame(streamSid.value, e.payload)] else [])
      ensures var e := AudioOut(old(useConversion), streamSid, data);
        var skipped := e.AudioThrows? || (e.Forward? && !twilioOpen);
        useConversion == (if !skipped && ReportsMulaw(data) then false else old(useConversion))
        && toAgent == old(toAgent) + (if skipped then [] else ToolFrames(data, custom, outcome))
        && requests == old(requests) + (if skipped then [] else ToolRequests(data, custom))
    {
      var threw := ForwardAudio(data);
      if threw {
        return;
      }
      FormatAndTools(data, outcome);
    }

    /**
     * The rest of an agent message once its audio went through (lines
     * 245-369): the format report and the tool call.
     */
    method FormatAndTools(data: Json, outcome: ToolDispatch.Outcome)
      requires Valid() && agent.Open?
      modifies this
      ensures Valid()
      ensures streamSid == old(streamSid) && agent == old(agent) && twilioOpen == old(twilioOpen)
      ensures custom == old(custom) && toTwilio == old(toTwilio)
      ensures useConversion == (if ReportsMulaw(data) then false else old(useConversion))
      ensures toAgent == old(toAgent) + ToolFrames(data, custom, outcome)
      ensures requests == old(requests) + ToolRequests(data, custom)
    {
      if ReportsMulaw(data) {
        useConversion := false;
      }
      toAgent := toAgent + ToolFrames(data, custom, outcome);
      requests := requests + ToolRequests(data, custom);
    }
  }

  // ---------------------------------------------------------------------
  // Properties of the handlers' building blocks

  /**
   * With conversion on, a call's μ-law audio that goes up to the agent and
   * comes straight back down returns as the same bytes, except that each
   * negative zero (0x7F) returns as positive zero (0xFF).
   */
  lemma ConversionRoundTrip(msg: Json, raw: seq<MuLaw.Byte>, streamSid: Option<Json>)
    requires Truthy(streamSid) && raw != []
    requires Get(Some(msg), "media") == Some(JObj(map["payload" := JStr(BytesToBinary(raw))]))
    ensures InboundChunk(true, msg).Some? && InboundChunk(true, msg).value.Some?
    ensures var up := InboundChunk(true, msg).value.value;
      up.JStr? &&
      AudioOut(true, streamSid, JObj(map["audio_chunk" := up])) == Forward(BytesToBinary(MuLaw.CanonicalAll(raw)))
  {
    BinaryRoundTrip(raw);
    MuLaw.DownUpRoundTrip(raw);
    MuLaw.UpsampledRange(raw);
    var pcm := MuLaw.PcmBytes(MuLaw.Upsampled(raw));
    BinaryRoundTrip(pcm);
    var up := JStr(BytesToBinary(pcm));
    assert InboundChunk(true, msg) == Some(Some(up));
    var data := JObj(map["audio_chunk" := up]);
    assert |pcm| == 4 * |raw|;
    assert AudioExtract.FirstAudio(data, AudioExtract.Candidates()) == Some(BytesToBinary(pcm)) by {
      AudioExtract.OnlyChunk(data, BytesToBinary(pcm));
    }
  }
}
