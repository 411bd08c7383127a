/**
 * The Go speech-to-text client's deterministic core: the server URL scheme
 * rewrite, the little-endian audio encoding, the transcript filter and the
 * `new_text` payload, and the client object's token request, message
 * dispatch, credential selection and shutdown latch. The Go channels
 * `tokenResponseChan` and `tokenErrorChan` are one-place slots; what the
 * concurrent reader delivers before the wait is given as a sequence of frames.
 */
module SpeechClient {
  import opened Common

  // -------------------------------------------------------------------------
  // connectToServer: the scheme rewrite
  // -------------------------------------------------------------------------

  /** http -> ws, https -> wss, ws and wss kept, anything else -> ws. */
  function RewriteScheme(scheme: string): (r: string)
    ensures r == "ws" || r == "wss"
    ensures r == "wss" <==> scheme == "https" || scheme == "wss"
  {
    if scheme == "http" then "ws"
    else if scheme == "https" then "wss"
    else if scheme != "ws" && scheme != "wss" then "ws"
    else scheme
  }

  /** Rewriting a rewritten scheme changes nothing. */
  lemma RewriteSchemeIdempotent(scheme: string)
    ensures RewriteScheme(RewriteScheme(scheme)) == RewriteScheme(scheme)
  {
  }

  /** A parsed server URL: its scheme and the rest after "://". */
  datatype ServerUrl = ServerUrl(scheme: string, rest: string)

  /** The URL dialled: the same URL under the rewritten scheme. */
  function WsUrl(u: ServerUrl): (s: string)
    ensures s == "ws://" + u.rest || s == "wss://" + u.rest
    ensures s == "wss://" + u.rest <==> u.scheme == "https" || u.scheme == "wss"
  {
    RewriteScheme(u.scheme) + "://" + u.rest
  }

  // -------------------------------------------------------------------------
  // int16ToBytes
  // -------------------------------------------------------------------------

  newtype int16 = x: int | -0x8000 <= x < 0x8000
  newtype uint8 = x: int | 0 <= x < 0x100

  /** The sample's 16-bit two's-complement bit pattern, as an unsigned number. */
  function Unsigned(x: int16): (u: nat)
    ensures u < 0x1_0000
    ensures x >= 0 ==> u == x as int
    ensures x < 0 ==> u == x as int + 0x1_0000
  {
    if x < 0 then x as int + 0x1_0000 else x as nat
  }

  function EncodeSample(x: int16): (bs: seq<uint8>)
    ensures |bs| == 2
    ensures bs[0] as int + 0x100 * bs[1] as int == Unsigned(x)
  {
    [(Unsigned(x) % 0x100) as uint8, (Unsigned(x) / 0x100) as uint8]
  }

  /** binary.Write(buf, binary.LittleEndian, samples): each sample low byte first. */
  function Int16ToBytes(samples: seq<int16>): (bs: seq<uint8>)
    ensures |bs| == 2 * |samples|
  {
    if samples == [] then [] else EncodeSample(samples[0]) + Int16ToBytes(samples[1..])
  }

  function DecodeSample(lo: uint8, hi: uint8): int16
  {
    var u := lo as int + 0x100 * hi as int;
    if u >= 0x8000 then (u - 0x1_0000) as int16 else u as int16
  }

  /** Reads little-endian samples back from an even number of bytes. */
  function BytesToInt16(bs: seq<uint8>): (samples: seq<int16>)
    requires |bs| % 2 == 0
    ensures |samples| == |bs| / 2
  {
    if bs == [] then [] else [DecodeSample(bs[0], bs[1])] + BytesToInt16(bs[2..])
  }

  /** Sample i occupies bytes 2i (low) and 2i+1 (high). */
  lemma {:induction false} Int16ToBytesLayout(samples: seq<int16>, i: nat)
    requires i < |samples|
    ensures Int16ToBytes(samples)[2 * i] as int + 0x100 * Int16ToBytes(samples)[2 * i + 1] as int
              == Unsigned(samples[i])
  {
    if i > 0 {
      Int16ToBytesLayout(samples[1..], i - 1);
      assert Int16ToBytes(samples)[2..] == Int16ToBytes(samples[1..]);
    }
  }

  /** Decoding the encoding recovers every sample. */
  lemma {:induction false} Int16RoundTrip(samples: seq<int16>)
    ensures BytesToInt16(Int16ToBytes(samples)) == samples
  {
    if samples != [] {
      var bs := Int16ToBytes(samples);
      assert bs[..2] == EncodeSample(samples[0]);
      assert bs[2..] == Int16ToBytes(samples[1..]);
      Int16RoundTrip(samples[1..]);
      assert DecodeSample(bs[0], bs[1]) == samples[0];
    }
  }

  // -------------------------------------------------------------------------
  // The transcript filter and the new_text payload
  // -------------------------------------------------------------------------

  /** unicode.IsSpace, which strings.TrimSpace uses. */
  predicate IsGoSpace(c: char)
  {
    c == ' ' || c == '\t' || c == '\n' || c == '\r' || c == '\U{000B}' || c == '\U{000C}'
    || c == '\U{0085}' || c == '\U{00A0}' || c == '\U{1680}' || ('\U{2000}' <= c <= '\U{200A}')
    || c == '\U{2028}' || c == '\U{2029}' || c == '\U{202F}' || c == '\U{205F}' || c == '\U{3000}'
  }

  function TrimLeft(s: string): (r: string)
    ensures |r| <= |s| && r == s[|s| - |r|..]
    ensures forall i :: 0 <= i < |s| - |r| ==> IsGoSpace(s[i])
    ensures r != [] ==> !IsGoSpace(r[0])
  {
    if s != [] && IsGoSpace(s[0]) then TrimLeft(s[1..]) else s
  }

  function TrimRight(s: string): (r: string)
    ensures |r| <= |s| && r == s[..|r|]
    ensures forall i :: |r| <= i < |s| ==> IsGoSpace(s[i])
    ensures r != [] ==> !IsGoSpace(r[|r| - 1])
  {
    if s != [] && IsGoSpace(s[|s| - 1]) then TrimRight(s[..|s| - 1]) else s
  }

  function TrimSpace(s: string): string
  {
    TrimRight(TrimLeft(s))
  }

  /** A transcript trims to nothing exactly when every character is white space. */
  lemma TrimSpaceEmptyIff(s: string)
    ensures TrimSpace(s) == [] <==> forall i :: 0 <= i < |s| ==> IsGoSpace(s[i])
  {
  }

  /** One Transcribe result; a nil *string transcript is None. */
  datatype Alternative = Alternative(transcript: Option<string>)
  datatype TranscriptResult = TranscriptResult(isPartial: bool, alternatives: seq<Alternative>)

  /**
   * The transcript forwarded for a result: only a final result whose first
   * alternative exists, is not nil, and is not blank.
   */
  function ForwardedTranscript(r: TranscriptResult): (t: Option<string>)
    ensures t.Some? ==> !r.isPartial && |r.alternatives| > 0 && r.alternatives[0].transcript == t
    ensures t.Some? ==> exists i :: 0 <= i < |t.value| && !IsGoSpace(t.value[i])
    ensures t.None? ==> r.isPartial || |r.alternatives| == 0 || r.alternatives[0].transcript.None?
                        || forall i :: 0 <= i < |r.alternatives[0].transcript.value| ==>
                             IsGoSpace(r.alternatives[0].transcript.value[i])
  {
    if !r.isPartial && |r.alternatives| > 0 && r.alternatives[0].transcript.Some? then
      var text := r.alternatives[0].transcript.value;
      TrimSpaceEmptyIff(text);
      if TrimSpace(text) != "" then Some(text) else None
    else None
  }

  /** A wall-clock time of day, as time.Now() gives it. */
  datatype Clock = Clock(hour: nat, minute: nat, second: nat)

  predicate ValidClock(c: Clock)
  {
    c.hour < 24 && c.minute < 60 && c.second < 60
  }

  function TwoDigits(n: nat): (s: string)
    requires n < 100
    ensures |s| == 2 && IsDigit(s[0]) && IsDigit(s[1])
  {
    [DigitChar(n / 10), DigitChar(n % 10)]
  }

  /** time.Format("15:04:05"): zero-padded 24-hour HH:MM:SS. */
  function FormatClock(c: Clock): (s: string)
    requires ValidClock(c)
    ensures |s| == 8 && s[2] == ':' && s[5] == ':'
    ensures IsDigit(s[0]) && IsDigit(s[1]) && IsDigit(s[3]) && IsDigit(s[4]) && IsDigit(s[6]) && IsDigit(s[7])
  {
    TwoDigits(c.hour) + ":" + TwoDigits(c.minute) + ":" + TwoDigits(c.second)
  }

  function ParseClock(s: string): Option<Clock>
  {
    if |s| == 8 && s[2] == ':' && s[5] == ':'
       && IsDigit(s[0]) && IsDigit(s[1]) && IsDigit(s[3]) && IsDigit(s[4]) && IsDigit(s[6]) && IsDigit(s[7])
    then Some(Clock(10 * DigitValue(s[0]) + DigitValue(s[1]), 10 * DigitValue(s[3]) + DigitValue(s[4]),
                    10 * DigitValue(s[6]) + DigitValue(s[7])))
    else None
  }

  /** The timestamp loses nothing: reading it back gives the time it was made from. */
  lemma ClockRoundTrip(c: Clock)
    requires ValidClock(c)
    ensures ParseClock(FormatClock(c)) == Some(c)
  {
    DigitRoundTrip(c.hour / 10);
    DigitRoundTrip(c.hour % 10);
    DigitRoundTrip(c.minute / 10);
    DigitRoundTrip(c.minute % 10);
    DigitRoundTrip(c.second / 10);
    DigitRoundTrip(c.second % 10);
  }

  /** A WebSocket message as the client reads and writes it. */
  datatype WSMessage = WSMessage(msgType: string, data: map<string, Json>)

  /** The `new_text` data: text and timestamp, plus api_key when one is configured. */
  function NewTextPayload(transcript: string, timestamp: string, apiKey: string): (d: map<string, Json>)
    ensures "text" in d && d["text"] == JStr(transcript)
    ensures "timestamp" in d && d["timestamp"] == JStr(timestamp)
    ensures "api_key" in d <==> apiKey != ""
    ensures "api_key" in d ==> d["api_key"] == JStr(apiKey)
    ensures d.Keys <= {"text", "timestamp", "api_key"}
  {
    var base := map["text" := JStr(transcript), "timestamp" := JStr(timestamp)];
    if apiKey != "" then base["api_key" := JStr(apiKey)] else base
  }

  /** The message sent for one result at one time of day, if the result is forwarded at all. */
  function NewTextMessage(r: TranscriptResult, now: Clock, apiKey: string): (m: Option<WSMessage>)
    requires ValidClock(now)
    ensures m.Some? <==> ForwardedTranscript(r).Some?
    ensures m.Some? ==> m.value.msgType == "new_text"
                        && "text" in m.value.data && m.value.data["text"] == JStr(ForwardedTranscript(r).value)
                        && "timestamp" in m.value.data && m.value.data["timestamp"].JStr?
                        && ParseClock(m.value.data["timestamp"].s) == Some(now)
                        && ("api_key" in m.value.data <==> apiKey != "")
  {
    match ForwardedTranscript(r)
    case Some(t) =>
      ClockRoundTrip(now);
      Some(WSMessage("new_text", NewTextPayload(t, FormatClock(now), apiKey)))
    case None => None
  }

  // -------------------------------------------------------------------------
  // Messages from the server: token responses and errors
  // -------------------------------------------------------------------------

  datatype AWSCredentials = AWSCredentials(accessKeyId: string, secretAccessKey: string,
                                           sessionToken: string, expiration: string)

  datatype TokenResponse = TokenResponse(status: string, credentials: AWSCredentials, region: string,
                                         error: string)

  /** A Go channel of capacity one: nil (never set), empty, or holding a value. */
  datatype Slot<T> = Unset | Empty | Full(value: T)

  /** A non-blocking send: taken only by an empty slot, dropped otherwise. */
  function Offer<T>(slot: Slot<T>, v: T): (r: Slot<T>)
    ensures slot.Empty? ==> r == Full(v)
    ensures !slot.Empty? ==> r == slot
  {
    if slot.Empty? then Full(v) else slot
  }

  datatype Slots = Slots(token: Slot<TokenResponse>, error: Slot<string>)

  /** What handling one message leaves: the slots, or a panic from a failed type assertion. */
  datatype Dispatched = Dispatched(slots: Slots) | Panicked

  /** `v, ok := m[key].(string)`. */
  function StrAt(m: map<string, Json>, key: string): Option<string>
  {
    if key in m && m[key].JStr? then Some(m[key].s) else None
  }

  /**
   * The token built from a success response; None when a credential field
   * or the region is missing or not a string (the unchecked assertions panic).
   */
  function TokenFrom(creds: map<string, Json>, data: map<string, Json>): (t: Option<TokenResponse>)
    ensures t.Some? <==> StrAt(creds, "AccessKeyId").Some? && StrAt(creds, "SecretAccessKey").Some?
                         && StrAt(creds, "SessionToken").Some? && StrAt(creds, "Expiration").Some?
                         && StrAt(data, "region").Some?
    ensures t.Some? ==> t.value.status == "success" && Some(t.value.region) == StrAt(data, "region")
                        && Some(t.value.credentials.accessKeyId) == StrAt(creds, "AccessKeyId")
                        && Some(t.value.credentials.secretAccessKey) == StrAt(creds, "SecretAccessKey")
                        && Some(t.value.credentials.sessionToken) == StrAt(creds, "SessionToken")
                        && Some(t.value.credentials.expiration) == StrAt(creds, "Expiration")
  {
    match (StrAt(creds, "AccessKeyId"), StrAt(creds, "SecretAccessKey"), StrAt(creds, "SessionToken"),
           StrAt(creds, "Expiration"), StrAt(data, "region"))
    case (Some(a), Some(k), Some(st), Some(e), Some(region)) =>
      Some(TokenResponse("success", AWSCredentials(a, k, st, e), region, ""))
    case _ => None
  }

  /**
   * The slots after handling one message. The server's error string is
   * offered as is, or, `asWritten`, after passing through fmt.Errorf.
   */
  function DispatchWith(msg: WSMessage, s: Slots, asWritten: bool): Dispatched
  {
    if msg.msgType == "token_response" then
      if "data" in msg.data && msg.data["data"].JObj? then
        var d := msg.data["data"].fields;
        if StrAt(d, "status") == Some("success") then
          if "credentials" in d && d["credentials"].JObj? then
            match TokenFrom(d["credentials"].fields, d)
            case Some(t) => Dispatched(s.(token := Offer(s.token, t)))
            case None => Panicked
          else Dispatched(s)
        else
          match StrAt(d, "error")
          case Some(e) => Dispatched(s.(error := Offer(s.error, ErrorText(e, asWritten))))
          case None => Dispatched(s)
      else Dispatched(s)
    else if msg.msgType == "error" then
      match StrAt(msg.data, "message")
      case Some(m) => Dispatched(s.(error := Offer(s.error, ErrorText(m, asWritten))))
      case None => Dispatched(s)
    else Dispatched(s)
  }

  /** readMessages' handling of one message, the server's error text offered as is. */
  function Dispatch(msg: WSMessage, s: Slots): Dispatched
  {
    DispatchWith(msg, s, false)
  }

  /** What fmt prints in place of a malformed directive: a trailing '%', and a verb with no operand. */
  datatype Markers = Markers(noVerb: string, bang: string, missing: string)

  const GoMarkers: Markers := Markers("%!(NOVERB)", "%!", "(MISSING)")

  /**
   * A format string rendered with no arguments: "%%" gives "%", a trailing
   * "%" gives m.noVerb, "%" before any other character c gives
   * m.bang + c + m.missing.
   */
  function FormatNoArgs(text: string, m: Markers): string
  {
    if text == [] then []
    else if text[0] != '%' then [text[0]] + FormatNoArgs(text[1..], m)
    else if |text| == 1 then m.noVerb
    else (if text[1] == '%' then "%" else m.bang + [text[1]] + m.missing) + FormatNoArgs(text[2..], m)
  }

  /** fmt.Errorf(text) with no arguments, as the reader calls it. */
  function ErrorfNoArgs(text: string): string
  {
    FormatNoArgs(text, GoMarkers)
  }

  function ErrorText(text: string, asWritten: bool): string
  {
    if asWritten then ErrorfNoArgs(text) else text
  }

  /** readMessages as written: the server's error string is used as a format string. */
  function DispatchAsWritten(msg: WSMessage, s: Slots): Dispatched
  {
    DispatchWith(msg, s, true)
  }

  /** A character other than '%' is copied through. */
  lemma FormatPlainChar(c: char, t: string, m: Markers)
    requires c != '%'
    ensures FormatNoArgs([c] + t, m) == [c] + FormatNoArgs(t, m)
  {
    assert ([c] + t)[1..] == t;
  }

  /** Text without '%' is copied through unchanged, in front of whatever follows. */
  lemma {:induction false} FormatPlainPrefix(plain: string, rest: string, m: Markers)
    requires '%' !in plain
    ensures FormatNoArgs(plain + rest, m) == plain + FormatNoArgs(rest, m)
  {
    if plain == [] {
      assert plain + rest == rest;
    } else {
      var tail := plain[1..];
      assert plain + rest == [plain[0]] + (tail + rest);
      FormatPlainChar(plain[0], tail + rest, m);
      FormatPlainPrefix(tail, rest, m);
      assert plain == [plain[0]] + tail;
    }
  }

  /** Text without '%' passes through fmt.Errorf unchanged, in front of whatever follows. */
  lemma ErrorfPlainPrefix(plain: string, rest: string)
    requires '%' !in plain
    ensures ErrorfNoArgs(plain + rest) == plain + ErrorfNoArgs(rest)
  {
    FormatPlainPrefix(plain, rest, GoMarkers);
  }

  /**
   * A server error ending in '%' reaches the waiting request mangled as
   * written, and intact when offered as is.
   */
  lemma ErrorfCounterexample()
    ensures ErrorfNoArgs("100%") == "100%!(NOVERB)"
    ensures var msg := WSMessage("error", map["message" := JStr("100%")]);
            && DispatchAsWritten(msg, Slots(Empty, Empty)) == Dispatched(Slots(Empty, Full("100%!(NOVERB)")))
            && Dispatch(msg, Slots(Empty, Empty)) == Dispatched(Slots(Empty, Full("100%")))
  {
    assert ErrorfNoArgs("%") == GoMarkers.noVerb;
    ErrorfPlainPrefix("100", "%");
    assert "100" + "%" == "100%";
    assert "100" + GoMarkers.noVerb == "100%!(NOVERB)";
    ServerErrorDispatch("100%", true, Slots(Empty, Empty));
    ServerErrorDispatch("100%", false, Slots(Empty, Empty));
  }

  /** An `error` message with a string `message` offers that text, or its formatting, to the error slot. */
  lemma ServerErrorDispatch(text: string, asWritten: bool, s: Slots)
    ensures DispatchWith(WSMessage("error", map["message" := JStr(text)]), s, asWritten)
              == Dispatched(s.(error := Offer(s.error, ErrorText(text, asWritten))))
  {
    var msg := WSMessage("error", map["message" := JStr(text)]);
    assert msg.msgType != "token_response";
    assert StrAt(msg.data, "message") == Some(text);
  }

  /** Whatever the server's error text, a waiting request receives exactly that text. */
  lemma ServerErrorReachesRequestIntact(text: string, s: Slots)
    requires s.error.Empty?
    ensures Dispatch(WSMessage("error", map["message" := JStr(text)]), s) == Dispatched(s.(error := Full(text)))
  {
    ServerErrorDispatch(text, false, s);
  }

  /**
   * A handled message fills at most one slot, and only one that was empty:
   * a full or nil slot is never overwritten.
   */
  lemma DispatchOnlyFillsEmptySlots(msg: WSMessage, s: Slots)
    ensures Dispatch(msg, s).Dispatched? ==>
              var r := Dispatch(msg, s).slots;
              && (r.token == s.token || (s.token.Empty? && r.token.Full?))
              && (r.error == s.error || (s.error.Empty? && r.error.Full?))
              && (r.token == s.token || r.error == s.error)
  {
  }

  /**
   * A success token_response with complete credentials delivers that token
   * to an empty token slot; a non-success one carrying an error string
   * delivers the string to an empty error slot.
   */
  lemma TokenResponseRouting(d: map<string, Json>, s: Slots)
    ensures var msg := WSMessage("token_response", map["data" := JObj(d)]);
            && (StrAt(d, "status") == Some("success") && "credentials" in d && d["credentials"].JObj?
                && TokenFrom(d["credentials"].fields, d).Some? && s.token.Empty? ==>
                  Dispatch(msg, s) == Dispatched(s.(token := Full(TokenFrom(d["credentials"].fields, d).value))))
            && (StrAt(d, "status") != Some("success") && StrAt(d, "error").Some? && s.error.Empty? ==>
                  Dispatch(msg, s) == Dispatched(s.(error := Full(StrAt(d, "error").value))))
            && (Dispatch(msg, s).Panicked? ==>
                  StrAt(d, "status") == Some("success") && "credentials" in d && d["credentials"].JObj?
                  && TokenFrom(d["credentials"].fields, d).None?)
  {
  }

  /** How the reader stops, if it does. */
  datatype ReaderEnd = StillReading | ReadFailed | Crashed

  /** A frame read from the socket: a decoded message or a read error. */
  datatype Frame = ReadError | Received(msg: WSMessage)

  /** The reader over a sequence of frames: it stops at the first read error or panic. */
  function ReadAll(frames: seq<Frame>, s: Slots): (Slots, ReaderEnd)
  {
    if frames == [] then (s, StillReading)
    else match frames[0]
      case ReadError => (s, ReadFailed)
      case Received(m) =>
        match Dispatch(m, s)
        case Panicked => (s, Crashed)
        case Dispatched(s1) => ReadAll(frames[1..], s1)
  }

  /** Frames after a read error are never looked at. */
  lemma {:induction false} ReadAllStopsAtError(before: seq<WSMessage>, after: seq<Frame>, s: Slots)
    ensures var frames := seq(|before|, i requires 0 <= i < |before| => Received(before[i])) + [ReadError] + after;
            ReadAll(frames, s).1 != StillReading
  {
    var frames := seq(|before|, i requires 0 <= i < |before| => Received(before[i])) + [ReadError] + after;
    if before != [] {
      match Dispatch(before[0], s)
      case Panicked =>
      case Dispatched(s1) =>
        var rest := seq(|before| - 1, i requires 0 <= i < |before| - 1 => Received(before[1..][i]));
        assert frames[1..] == rest + [ReadError] + after;
        ReadAllStopsAtError(before[1..], after, s1);
    } else {
      assert frames[0] == ReadError;
    }
  }

  /** The AWS configuration getAWSConfig produces. */
  datatype AWSConfig =
    | LocalConfig(region: string)
    | TokenConfig(accessKeyId: string, secretAccessKey: string, sessionToken: string, region: string)
    | ConfigError(message: string)

  function GenerateTokenMessage(apiKey: string): WSMessage
  {
    WSMessage("generate_token", map["api_key" := JStr(apiKey)])
  }

  // -------------------------------------------------------------------------
  // The client object
  // -------------------------------------------------------------------------

  /**
   * The select in requestToken over the two slots: a token is taken unless
   * an error is also ready and chosen (`preferError`); a ready error is
   * reported; with neither, the wait times out. The result is the slots
   * afterwards, the error returned and the current token.
   */
  function Await(s: Slots, preferError: bool, current: Option<TokenResponse>)
    : (r: (Slots, Option<string>, Option<TokenResponse>))
    ensures r.1.None? <==> s.token.Full? && !(s.error.Full? && preferError)
    ensures r.1.None? ==> r.2 == Some(s.token.value) && r.0 == Slots(Empty, s.error)
    ensures r.1.Some? ==> r.2 == current
    ensures s.error.Full? && (preferError || !s.token.Full?) ==>
              r.1 == Some("token generation failed: " + s.error.value) && r.0 == Slots(s.token, Empty)
    ensures !s.token.Full? && !s.error.Full? ==> r == (s, Some("token request timed out"), current)
  {
    if s.token.Full? && !(s.error.Full? && preferError) then (Slots(Empty, s.error), None, Some(s.token.value))
    else if s.error.Full? then (Slots(s.token, Empty), Some("token generation failed: " + s.error.value), current)
    else (s, Some("token request timed out"), current)
  }

  class SpeechToText {
    const serverUrl: ServerUrl
    const apiKey: string
    const awsRegion: string
    const useLocalToken: bool
    /** wsConn != nil. */
    var hasConn: bool
    /** Whether the connection has been closed (the pointer itself stays set). */
    var connClosed: bool
    var isRunning: bool
    var currentToken: Option<TokenResponse>
    var tokenSlot: Slot<TokenResponse>
    var errorSlot: Slot<string>
    /** Whether shutdownRequested has been closed, and how many times close was called on it. */
    var shutdownRequested: bool
    var shutdownCloses: nat
    /** Every message written to the socket, in order. */
    var sent: seq<WSMessage>
    /** Every URL dialled, in order. */
    var dials: seq<string>

    /** Closing a closed channel panics in Go: the latch is closed exactly once or not at all. */
    ghost predicate Valid()
      reads this
    {
      shutdownCloses == if shutdownRequested then 1 else 0
    }

    /** NewSpeechToText: not running, not connected, no token, no waiting slots, latch open. */
    constructor (serverUrl: ServerUrl, apiKey: string, awsRegion: string, useLocalToken: bool)
      ensures Valid()
      ensures this.serverUrl == serverUrl && this.apiKey == apiKey && this.awsRegion == awsRegion
      ensures this.useLocalToken == useLocalToken
      ensures !hasConn && !connClosed && !isRunning && currentToken == None
      ensures tokenSlot == Unset && errorSlot == Unset && !shutdownRequested
      ensures sent == [] && dials == []
    {
      this.serverUrl := serverUrl;
      this.apiKey := apiKey;
      this.awsRegion := awsRegion;
      this.useLocalToken := useLocalToken;
      hasConn := false;
      connClosed := false;
      isRunning := false;
      currentToken := None;
      tokenSlot := Unset;
      errorSlot := Unset;
      shutdownRequested := false;
      shutdownCloses := 0;
      sent := [];
      dials := [];
    }

    /** connectToServer: dials the rewritten URL; a successful dial installs a fresh connection. */
    method ConnectToServer(dialOk: bool) returns (ok: bool)
      modifies this
      ensures dials == old(dials) + [WsUrl(serverUrl)]
      ensures ok == dialOk
      ensures dialOk ==> hasConn && !connClosed
      ensures !dialOk ==> hasConn == old(hasConn) && connClosed == old(connClosed)
      ensures sent == old(sent) && currentToken == old(currentToken)
      ensures tokenSlot == old(tokenSlot) && errorSlot == old(errorSlot)
      ensures isRunning == old(isRunning) && shutdownRequested == old(shutdownRequested)
      ensures shutdownCloses == old(shutdownCloses)
    {
      var wsUrl := WsUrl(serverUrl);
      dials := dials + [wsUrl];
      if dialOk {
        hasConn := true;
        connClosed := false;
      }
      ok := dialOk;
    }

    /** sendMessage: refuses without a connection; `writeErr` is what WriteJSON reports. */
    method SendMessage(msgType: string, data: map<string, Json>, writeErr: Option<string>)
      returns (err: Option<string>)
      modifies this
      ensures !old(hasConn) ==> err == Some("WebSocket connection not established") && sent == old(sent)
      ensures old(hasConn) && writeErr.None? ==> err == None && sent == old(sent) + [WSMessage(msgType, data)]
      ensures old(hasConn) && writeErr.Some? ==> err == writeErr && sent == old(sent)
      ensures hasConn == old(hasConn) && dials == old(dials) && currentToken == old(currentToken)
      ensures tokenSlot == old(tokenSlot) && errorSlot == old(errorSlot)
      ensures connClosed == old(connClosed) && isRunning == old(isRunning)
      ensures shutdownRequested == old(shutdownRequested) && shutdownCloses == old(shutdownCloses)
    {
      if !hasConn {
        return Some("WebSocket connection not established");
      }
      if writeErr.None? {
        sent := sent + [WSMessage(msgType, data)];
      }
      err := writeErr;
    }

    /**
     * The first half of requestToken: without an API key or a connection it
     * fails before touching anything; otherwise it installs two fresh empty
     * slots and writes generate_token.
     */
    method BeginTokenRequest(writeErr: Option<string>) returns (err: Option<string>)
      requires Valid()
      modifies this
      ensures Valid()
      ensures apiKey == "" ==> err == Some("API key is required for token generation")
      ensures apiKey != "" && !old(hasConn) ==> err == Some("WebSocket connection not established")
      ensures apiKey == "" || !old(hasConn) ==>
                sent == old(sent) && tokenSlot == old(tokenSlot) && errorSlot == old(errorSlot)
      ensures apiKey != "" && old(hasConn) ==>
                tokenSlot == Empty && errorSlot == Empty
                && (writeErr.None? ==> err == None && sent == old(sent) + [GenerateTokenMessage(apiKey)])
                && (writeErr.Some? ==> err == Some("failed to send token request: " + writeErr.value)
                                       && sent == old(sent))
      ensures currentToken == old(currentToken) && hasConn == old(hasConn) && dials == old(dials)
      ensures connClosed == old(connClosed) && isRunning == old(isRunning)
      ensures shutdownRequested == old(shutdownRequested) && shutdownCloses == old(shutdownCloses)
    {
      if apiKey == "" {
        return Some("API key is required for token generation");
      }
      if !hasConn {
        return Some("WebSocket connection not established");
      }
      tokenSlot := Empty;
      errorSlot := Empty;
      var message := GenerateTokenMessage(apiKey);
      if writeErr.Some? {
        return Some("failed to send token request: " + writeErr.value);
      }
      sent := sent + [message];
      err := None;
    }

    /** readMessages' handling of one message; `crashed` when a type assertion panics. */
    method DispatchMessage(msg: WSMessage) returns (crashed: bool)
      modifies this
      ensures crashed <==> Dispatch(msg, Slots(old(tokenSlot), old(errorSlot))).Panicked?
      ensures !crashed ==> Dispatch(msg, Slots(old(tokenSlot), old(errorSlot)))
                             == Dispatched(Slots(tokenSlot, errorSlot))
      ensures crashed ==> tokenSlot == old(tokenSlot) && errorSlot == old(errorSlot)
      ensures currentToken == old(currentToken) && sent == old(sent) && hasConn == old(hasConn)
      ensures connClosed == old(connClosed) && dials == old(dials)
      ensures isRunning == old(isRunning) && shutdownRequested == old(shutdownRequested)
      ensures shutdownCloses == old(shutdownCloses)
    {
      crashed := false;
      if msg.msgType == "token_response" {
        if "data" in msg.data && msg.data["data"].JObj? {
          var d := msg.data["data"].fields;
          if StrAt(d, "status") == Some("success") {
            if "credentials" in d && d["credentials"].JObj? {
              var token := TokenFrom(d["credentials"].fields, d);
              if token.None? {
                return true;
              }
              if tokenSlot.Empty? {
                tokenSlot := Full(token.value);
              }
            }
          } else {
            var e := StrAt(d, "error");
            if e.Some? && errorSlot.Empty? {
              errorSlot := Full(e.value);
            }
          }
        }
      } else if msg.msgType == "error" {
        var m := StrAt(msg.data, "message");
        if m.Some? && errorSlot.Empty? {
          errorSlot := Full(m.value);
        }
      }
    }

    /**
     * readMessages over the frames the socket yields: it stops at a read
     * error or a panic, closing the connection on the way out.
     */
    method ReadMessages(frames: seq<Frame>) returns (end: ReaderEnd)
      modifies this
      ensures (Slots(tokenSlot, errorSlot), end) == ReadAll(frames, Slots(old(tokenSlot), old(errorSlot)))
      ensures connClosed == (old(connClosed) || end != StillReading)
      ensures currentToken == old(currentToken) && sent == old(sent) && hasConn == old(hasConn)
      ensures dials == old(dials) && isRunning == old(isRunning)
      ensures shutdownRequested == old(shutdownRequested) && shutdownCloses == old(shutdownCloses)
    {
      var i := 0;
      end := StillReading;
      while i < |frames| && end == StillReading
        invariant 0 <= i <= |frames|
        invariant end == StillReading ==>
                    ReadAll(frames, Slots(old(tokenSlot), old(errorSlot)))
                      == ReadAll(frames[i..], Slots(tokenSlot, errorSlot))
        invariant end != StillReading ==>
                    ReadAll(frames, Slots(old(tokenSlot), old(errorSlot))) == (Slots(tokenSlot, errorSlot), end)
        invariant connClosed == old(connClosed)
        invariant currentToken == old(currentToken) && sent == old(sent) && hasConn == old(hasConn)
        invariant dials == old(dials) && isRunning == old(isRunning)
        invariant shutdownRequested == old(shutdownRequested) && shutdownCloses == old(shutdownCloses)
        decreases |frames| - i, if end == StillReading then 1 else 0
      {
        match frames[i]
        case ReadError =>
          end := ReadFailed;
        case Received(m) =>
          var crashed := DispatchMessage(m);
          if crashed {
            end := Crashed;
          } else {
            assert frames[i..][1..] == frames[i + 1..];
            i := i + 1;
          }
      }
      if end != StillReading {
        connClosed := true;
      } else {
        assert frames[i..] == [];
      }
    }

    /**
     * The wait in requestToken: the slots, the error and currentToken as
     * Await says, and nothing else changes.
     */
    method AwaitToken(preferError: bool) returns (err: Option<string>)
      modifies this
      ensures (Slots(tokenSlot, errorSlot), err, currentToken)
                == Await(Slots(old(tokenSlot), old(errorSlot)), preferError, old(currentToken))
      ensures sent == old(sent) && hasConn == old(hasConn) && connClosed == old(connClosed)
      ensures dials == old(dials) && isRunning == old(isRunning)
      ensures shutdownRequested == old(shutdownRequested) && shutdownCloses == old(shutdownCloses)
    {
      if tokenSlot.Full? && !(errorSlot.Full? && preferError) {
        currentToken := Some(tokenSlot.value);
        tokenSlot := Empty;
        err := None;
      } else if errorSlot.Full? {
        err := Some("token generation failed: " + errorSlot.value);
        errorSlot := Empty;
      } else {
        err := Some("token request timed out");
      }
    }

    /**
     * requestToken, with the reader handling `arrivals` while it waits:
     * it succeeds exactly when a complete success response reaches the
     * fresh token slot first, and then holds exactly that token.
     */
    method RequestToken(writeErr: Option<string>, arrivals: seq<Frame>, preferError: bool)
      returns (err: Option<string>)
      requires Valid()
      modifies this
      ensures Valid()
      ensures apiKey == "" || !old(hasConn) || writeErr.Some? ==>
                err.Some? && currentToken == old(currentToken) && sent == old(sent) && connClosed == old(connClosed)
      ensures apiKey == "" || !old(hasConn) ==> tokenSlot == old(tokenSlot) && errorSlot == old(errorSlot)
      ensures apiKey != "" && old(hasConn) && writeErr.Some? ==> tokenSlot == Empty && errorSlot == Empty
      ensures apiKey != "" && old(hasConn) && writeErr.None? ==>
                var (slots, end) := ReadAll(arrivals, Slots(Empty, Empty));
                sent == old(sent) + [GenerateTokenMessage(apiKey)]
                && connClosed == (old(connClosed) || end != StillReading)
                && (Slots(tokenSlot, errorSlot), err, currentToken) == Await(slots, preferError, old(currentToken))
      ensures err.None? <==>
                apiKey != "" && old(hasConn) && writeErr.None?
                && ReadAll(arrivals, Slots(Empty, Empty)).0.token.Full?
                && !(ReadAll(arrivals, Slots(Empty, Empty)).0.error.Full? && preferError)
      ensures err.None? ==> currentToken == Some(ReadAll(arrivals, Slots(Empty, Empty)).0.token.value)
      ensures err.Some? ==> currentToken == old(currentToken)
      ensures hasConn == old(hasConn) && dials == old(dials)
      ensures isRunning == old(isRunning) && shutdownRequested == old(shutdownRequested)
    {
      err := BeginTokenRequest(writeErr);
      if err.Some? {
        return;
      }
      var _ := ReadMessages(arrivals);
      err := AwaitToken(preferError);
    }

    /**
     * getAWSConfig: local mode uses the configured region (the default
     * credential chain is not modelled); otherwise the stored token's keys
     * and region, or an error when no token is stored.
     */
    function GetAWSConfig(): (cfg: AWSConfig)
      reads this
      ensures useLocalToken ==> cfg == LocalConfig(awsRegion)
      ensures !useLocalToken && currentToken.None? ==> cfg == ConfigError("no AWS token available")
      ensures !useLocalToken && currentToken.Some? ==>
                cfg == TokenConfig(currentToken.value.credentials.accessKeyId,
                                   currentToken.value.credentials.secretAccessKey,
                                   currentToken.value.credentials.sessionToken,
                                   currentToken.value.region)
    {
      if useLocalToken then LocalConfig(awsRegion)
      else match currentToken
        case None => ConfigError("no AWS token available")
        case Some(t) => TokenConfig(t.credentials.accessKeyId, t.credentials.secretAccessKey,
                                    t.credentials.sessionToken, t.region)
    }

    /**
     * GracefulStop: closes the latch only the first time, marks the client
     * stopped, and closes an open connection.
     */
    method GracefulStop()
      requires Valid()
      modifies this
      ensures Valid()
      ensures shutdownRequested && shutdownCloses == 1 && !isRunning
      ensures connClosed == (old(connClosed) || old(hasConn))
      ensures hasConn == old(hasConn) && currentToken == old(currentToken) && sent == old(sent)
      ensures tokenSlot == old(tokenSlot) && errorSlot == old(errorSlot) && dials == old(dials)
    {
      if !shutdownRequested {
        shutdownRequested := true;
        shutdownCloses := shutdownCloses + 1;
      }
      isRunning := false;
      if hasConn {
        connClosed := true;
      }
    }
  }

  /** Stopping twice closes the latch once, like stopping once. */
  method StopTwice(client: SpeechToText)
    requires client.Valid()
    modifies client
    ensures client.shutdownCloses == 1 && client.shutdownRequested && !client.isRunning
  {
    client.GracefulStop();
    client.GracefulStop();
  }
}
