/**
 * The messages the broker sends to its connections, as a closed set of
 * variants, and their wire form `{"type": <name>, "data": {...}}`.
 */
module Protocol {
  import opened Common

  /** The payload of a `translated_text` message: one transcript for one viewer. */
  datatype Translation = Translation(text: string, original: string, timestamp: string, language: string)

  datatype Message =
    | ConnectionStatus(awsAvailable: bool)
    | LanguageSet(language: string)
    | TranslatedText(translation: Translation)
    | TranslationResult(original: string, translated: string, language: string)
    | ErrorMessage(message: string)

  /** The wire name of each message type. */
  function TypeName(m: Message): string
  {
    match m
    case ConnectionStatus(_) => "connection_status"
    case LanguageSet(_) => "language_set"
    case TranslatedText(_) => "translated_text"
    case TranslationResult(_, _, _) => "translation_result"
    case ErrorMessage(_) => "error"
  }

  function TranslationData(t: Translation): map<string, Json>
  {
    map["text" := JStr(t.text), "original" := JStr(t.original),
        "timestamp" := JStr(t.timestamp), "language" := JStr(t.language)]
  }

  /** The `data` object of each message. */
  function Data(m: Message): map<string, Json>
  {
    match m
    case ConnectionStatus(aws) => map["status" := JStr("connected"), "aws_available" := JBool(aws)]
    case LanguageSet(lang) => map["language" := JStr(lang)]
    case TranslatedText(t) => TranslationData(t)
    case TranslationResult(orig, tr, lang) =>
      map["original" := JStr(orig), "translated" := JStr(tr), "language" := JStr(lang)]
    case ErrorMessage(msg) => map["message" := JStr(msg)]
  }

  /** The JSON object that goes on the wire. */
  function ToJson(m: Message): Json
  {
    JObj(map["type" := JStr(TypeName(m)), "data" := JObj(Data(m))])
  }

  /** Looks up `data.<key>` in a wire object. */
  function DataField(j: Json, key: string): Option<Json>
  {
    if j.JObj? && "data" in j.fields && j.fields["data"].JObj? && key in j.fields["data"].fields
    then Some(j.fields["data"].fields[key])
    else None
  }

  /** Looks up the `type` of a wire object. */
  function TypeField(j: Json): Option<Json>
  {
    if j.JObj? && "type" in j.fields then Some(j.fields["type"]) else None
  }

  function StrField(d: map<string, Json>, key: string): Option<string>
  {
    if key in d && d[key].JStr? then Some(d[key].s) else None
  }

  /** Reads a wire object back into a message; None for anything that is not one. */
  function FromJson(j: Json): Option<Message>
  {
    if !(j.JObj? && "type" in j.fields && j.fields["type"].JStr?
         && "data" in j.fields && j.fields["data"].JObj?) then None
    else
      var t, d := j.fields["type"].s, j.fields["data"].fields;
      if t == "connection_status" then
        if StrField(d, "status") == Some("connected") && "aws_available" in d && d["aws_available"].JBool?
        then Some(ConnectionStatus(d["aws_available"].b)) else None
      else if t == "language_set" then
        if StrField(d, "language").Some? then Some(LanguageSet(StrField(d, "language").value)) else None
      else if t == "translated_text" then
        if StrField(d, "text").Some? && StrField(d, "original").Some?
           && StrField(d, "timestamp").Some? && StrField(d, "language").Some?
        then Some(TranslatedText(Translation(StrField(d, "text").value, StrField(d, "original").value,
                                             StrField(d, "timestamp").value, StrField(d, "language").value)))
        else None
      else if t == "translation_result" then
        if StrField(d, "original").Some? && StrField(d, "translated").Some? && StrField(d, "language").Some?
        then Some(TranslationResult(StrField(d, "original").value, StrField(d, "translated").value,
                                    StrField(d, "language").value))
        else None
      else if t == "error" then
        if StrField(d, "message").Some? then Some(ErrorMessage(StrField(d, "message").value)) else None
      else None
  }

  /** Every message survives its wire form unchanged. */
  lemma WireRoundTrip(m: Message)
    ensures FromJson(ToJson(m)) == Some(m)
  {
    match m
    case ConnectionStatus(_) => StatusRoundTrip(m);
    case LanguageSet(_) => LanguageSetRoundTrip(m);
    case TranslatedText(_) => TranslatedRoundTrip(m);
    case TranslationResult(_, _, _) => ResultRoundTrip(m);
    case ErrorMessage(_) => ErrorRoundTrip(m);
  }

  lemma StatusRoundTrip(m: Message)
    requires m.ConnectionStatus?
    ensures FromJson(ToJson(m)) == Some(m)
  {
    assert Data(m)["status"] == JStr("connected");
  }

  lemma LanguageSetRoundTrip(m: Message)
    requires m.LanguageSet?
    ensures FromJson(ToJson(m)) == Some(m)
  {
  }

  lemma TranslatedRoundTrip(m: Message)
    requires m.TranslatedText?
    ensures FromJson(ToJson(m)) == Some(m)
  {
    assert Data(m) == TranslationData(m.translation);
  }

  lemma ResultRoundTrip(m: Message)
    requires m.TranslationResult?
    ensures FromJson(ToJson(m)) == Some(m)
  {
  }

  lemma ErrorRoundTrip(m: Message)
    requires m.ErrorMessage?
    ensures FromJson(ToJson(m)) == Some(m)
  {
  }

  /** Distinct messages have distinct wire forms. */
  lemma WireInjective(m1: Message, m2: Message)
    requires ToJson(m1) == ToJson(m2)
    ensures m1 == m2
  {
    WireRoundTrip(m1);
    WireRoundTrip(m2);
  }
}
