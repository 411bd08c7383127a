/**
 * The broker's message logic shared by its front ends: the translation
 * service with its fallbacks, API-key validation, language updates, the
 * per-client fan-out of a new transcript, and the reply constructors.
 */
module MessageHandling {
  import opened Common
  import opened Protocol
  import opened ClientMap

  // -------------------------------------------------------------------------
  // TranslationService
  // -------------------------------------------------------------------------

  /** What the translation backend does with one request. */
  datatype TranslateOutcome = Translated(text: string) | TranslateClientError | TranslateFailure

  /** The backend call: (text, source language, target language) -> outcome. */
  type Translator = (string, string, string) -> TranslateOutcome

  /** `aws_available` records whether the backend client could be created. */
  datatype TranslationService = TranslationService(awsAvailable: bool)

  /** Whether translate_text reaches the backend at all. */
  predicate Consults(svc: TranslationService, target: string)
  {
    svc.awsAvailable && target != "en"
  }

  /**
   * The translated text, or the input unchanged when the backend is
   * unavailable, when the target is English, or when the backend fails.
   */
  function TranslateText(svc: TranslationService, backend: Translator, text: string, target: string,
                         source: string := "auto"): (r: string)
    ensures !Consults(svc, target) ==> r == text
    ensures Consults(svc, target) && backend(text, source, target).Translated? ==>
              r == backend(text, source, target).text
    ensures Consults(svc, target) && !backend(text, source, target).Translated? ==> r == text
    ensures r != text ==> backend(text, source, target) == Translated(r)
  {
    if !svc.awsAvailable then text
    else if target == "en" then text
    else match backend(text, source, target)
      case Translated(t) => t
      case TranslateClientError => text
      case TranslateFailure => text
  }

  /** Whenever the backend is not consulted, what it would answer makes no difference. */
  lemma TranslateIgnoresBackendWhenNotConsulted(svc: TranslationService, b1: Translator, b2: Translator,
                                                text: string, target: string)
    requires !Consults(svc, target)
    ensures TranslateText(svc, b1, text, target) == TranslateText(svc, b2, text, target) == text
  {
  }

  // -------------------------------------------------------------------------
  // MessageHandler
  // -------------------------------------------------------------------------

  datatype MessageHandler = MessageHandler(service: TranslationService, apiKey: Option<string>)

  /** Any key passes when no key is configured (None or ""); otherwise exactly the configured key. */
  function ValidateApiKey(h: MessageHandler, provided: string): (ok: bool)
    ensures !Truthy(h.apiKey) ==> ok
    ensures Truthy(h.apiKey) ==> (ok <==> provided == h.apiKey.value)
    ensures !ok ==> provided != "" || Truthy(h.apiKey)
  {
    if !Truthy(h.apiKey) then true else provided == h.apiKey.value
  }

  const LanguageUpdateFailed: string := "Failed to update language preference"

  /**
   * Updates the client's language in the map and answers `language_set`,
   * or an error when the map reports failure.
   */
  method HandleSetLanguage(h: MessageHandler, clientId: ClientId, language: string,
                           clientMap: DynamoClientMap, tableFault: bool) returns (reply: Message)
    requires clientMap.Valid()
    modifies clientMap, clientMap.cache
    ensures clientMap.Valid()
    ensures reply == if tableFault then ErrorMessage(LanguageUpdateFailed) else LanguageSet(language)
    ensures !tableFault ==> clientMap.table == old(clientMap.table)[clientId :=
              if clientId in old(clientMap.table) then old(clientMap.table)[clientId].(lang := Some(language))
              else TableItem(Some(language), None)]
    ensures !tableFault && clientId in old(clientMap.cache.clients) ==>
              clientMap.cache.clients == old(clientMap.cache.clients)[clientId :=
                old(clientMap.cache.clients)[clientId].(lang := language)]
    ensures tableFault || clientId !in old(clientMap.cache.clients) ==>
              clientMap.cache.clients == old(clientMap.cache.clients)
    ensures tableFault ==> clientMap.table == old(clientMap.table)
    ensures clientMap.cache.order == old(clientMap.cache.order)
  {
    var success := clientMap.UpdateLanguage(clientId, language, tableFault);
    if success {
      reply := LanguageSet(language);
    } else {
      reply := ErrorMessage(LanguageUpdateFailed);
    }
  }

  // --- new_text ------------------------------------------------------------

  datatype TranslationEntry = TranslationEntry(clientId: ClientId, translation: Translation)

  datatype NewTextResult =
    | NewTextRejected(error: string)
    | NewTextAccepted(translations: seq<TranslationEntry>)
  {
    function Status(): string
    {
      if NewTextRejected? then "error" else "success"
    }

    function MessageType(): string
    {
      if NewTextRejected? then "error" else "translated_text"
    }
  }

  const Unauthorized: string := "Unauthorized: Invalid API key"

  /** An entry of the registry as the dict the handler iterates over. */
  function EntryDict(info: ClientInfo): map<string, Json>
  {
    map["lang" := JStr(info.lang),
        "ws" := (match info.ws case Some(n) => JNum(n) case None => JNull),
        "is_authorized_sender" := JBool(info.isAuthorizedSender)]
  }

  /** The target language as handle_new_text reads it: key "language", default "en". */
  function LanguageAsWritten(info: ClientInfo): string
  {
    match ReadString(EntryDict(info), "language", "en")
    case Some(l) => l
    case None => "en"
  }

  /** The target language the registry actually stores for the client (key "lang"). */
  function LanguageIntended(info: ClientInfo): string
  {
    info.lang
  }

  /** One client's share of a transcript: English as is, anything else through the service. */
  function EntryFor(h: MessageHandler, backend: Translator, text: string, timestamp: string,
                    id: ClientId, target: string): (e: TranslationEntry)
    ensures e.clientId == id
    ensures e.translation.original == text && e.translation.timestamp == timestamp
    ensures e.translation.language == target
    ensures target == "en" ==> e.translation.text == text
  {
    var translated := if target == "en" then text else TranslateText(h.service, backend, text, target);
    TranslationEntry(id, Translation(translated, text, timestamp, target))
  }

  /** The translations list built for `entries`, reading each target with `langOf`. */
  function FanOut(h: MessageHandler, backend: Translator, text: string, timestamp: string,
                  entries: seq<(ClientId, ClientInfo)>, langOf: ClientInfo -> string): seq<TranslationEntry>
  {
    if entries == [] then []
    else
      var last := entries[|entries| - 1];
      FanOut(h, backend, text, timestamp, entries[..|entries| - 1], langOf)
        + [EntryFor(h, backend, text, timestamp, last.0, langOf(last.1))]
  }

  /** Exactly one entry per client, in the order given, each carrying that client's id and language. */
  lemma {:induction false} FanOutShape(h: MessageHandler, backend: Translator, text: string, timestamp: string,
                                       entries: seq<(ClientId, ClientInfo)>, langOf: ClientInfo -> string)
    ensures |FanOut(h, backend, text, timestamp, entries, langOf)| == |entries|
    ensures forall i :: 0 <= i < |entries| ==>
              FanOut(h, backend, text, timestamp, entries, langOf)[i]
                == EntryFor(h, backend, text, timestamp, entries[i].0, langOf(entries[i].1))
  {
    if entries != [] {
      FanOutShape(h, backend, text, timestamp, entries[..|entries| - 1], langOf);
    }
  }

  /** handle_new_text as written, over the registry's entries. */
  function NewTextAsWritten(h: MessageHandler, backend: Translator, text: string, timestamp: string,
                            apiKey: string, entries: seq<(ClientId, ClientInfo)>): NewTextResult
  {
    if !ValidateApiKey(h, apiKey) then NewTextRejected(Unauthorized)
    else NewTextAccepted(FanOut(h, backend, text, timestamp, entries, LanguageAsWritten))
  }

  /** handle_new_text reading the language the registry stores. */
  function NewText(h: MessageHandler, backend: Translator, text: string, timestamp: string,
                   apiKey: string, entries: seq<(ClientId, ClientInfo)>): NewTextResult
  {
    if !ValidateApiKey(h, apiKey) then NewTextRejected(Unauthorized)
    else NewTextAccepted(FanOut(h, backend, text, timestamp, entries, LanguageIntended))
  }

  /**
   * As written, every viewer receives the original English text labelled
   * "en", whatever language it chose: the entry dict has no "language" key.
   */
  lemma AsWrittenNeverTranslates(h: MessageHandler, backend: Translator, text: string, timestamp: string,
                                 apiKey: string, entries: seq<(ClientId, ClientInfo)>)
    requires ValidateApiKey(h, apiKey)
    ensures var r := NewTextAsWritten(h, backend, text, timestamp, apiKey, entries);
            r.NewTextAccepted? && |r.translations| == |entries| &&
            forall i :: 0 <= i < |entries| ==>
              r.translations[i].translation.text == text && r.translations[i].translation.language == "en"
  {
    FanOutShape(h, backend, text, timestamp, entries, LanguageAsWritten);
    forall info: ClientInfo ensures LanguageAsWritten(info) == "en" {
      assert "language" !in EntryDict(info);
    }
  }

  /** A Spanish viewer, a working backend: as written it gets English, as intended Spanish. */
  lemma AsWrittenCounterexample()
    ensures var h := MessageHandler(TranslationService(true), None);
            var backend: Translator := (t, s, g) => Translated("hola");
            var entries := [("viewer-1", ClientInfo("es", None, false))];
            NewTextAsWritten(h, backend, "hello", "10:00:00", "", entries).translations[0].translation
              == Translation("hello", "hello", "10:00:00", "en")
            && NewText(h, backend, "hello", "10:00:00", "", entries).translations[0].translation
              == Translation("hola", "hello", "10:00:00", "es")
  {
    var h := MessageHandler(TranslationService(true), None);
    var backend: Translator := (t, s, g) => Translated("hola");
    var entries := [("viewer-1", ClientInfo("es", None, false))];
    assert entries[..0] == [];
    assert "language" !in EntryDict(entries[0].1);
  }

  /**
   * The intended fan-out: a client whose stored language is not English gets
   * the service's translation into that language, labelled with it.
   */
  lemma NewTextTranslatesStoredLanguage(h: MessageHandler, backend: Translator, text: string, timestamp: string,
                                        apiKey: string, entries: seq<(ClientId, ClientInfo)>, i: nat)
    requires ValidateApiKey(h, apiKey) && i < |entries|
    ensures var r := NewText(h, backend, text, timestamp, apiKey, entries);
            var lang := entries[i].1.lang;
            r.NewTextAccepted? && |r.translations| == |entries|
            && r.translations[i].clientId == entries[i].0
            && r.translations[i].translation.language == lang
            && r.translations[i].translation.text
                 == (if lang == "en" then text else TranslateText(h.service, backend, text, lang))
  {
    FanOutShape(h, backend, text, timestamp, entries, LanguageIntended);
  }

  /** The languages handle_new_text passes to the translation service, in registry order. */
  function ServiceRequests(entries: seq<(ClientId, ClientInfo)>): (rs: seq<string>)
    ensures forall k :: 0 <= k < |rs| ==> rs[k] != "en"
    ensures |rs| <= |entries|
  {
    if entries == [] then []
    else
      var lang := entries[|entries| - 1].1.lang;
      ServiceRequests(entries[..|entries| - 1]) + (if lang == "en" then [] else [lang])
  }

  /** Everything a caller needs about an accepted new_text, from the registry entries alone. */
  lemma NewTextShape(h: MessageHandler, backend: Translator, text: string, timestamp: string,
                     apiKey: string, entries: seq<(ClientId, ClientInfo)>)
    ensures var r := NewText(h, backend, text, timestamp, apiKey, entries);
            && (!ValidateApiKey(h, apiKey) ==> r == NewTextRejected(Unauthorized))
            && (ValidateApiKey(h, apiKey) ==> r.NewTextAccepted? && |r.translations| == |entries|)
            && (r.NewTextAccepted? ==>
                 forall i :: 0 <= i < |entries| ==>
                   r.translations[i].clientId == entries[i].0
                   && r.translations[i].translation.original == text
                   && r.translations[i].translation.timestamp == timestamp
                   && r.translations[i].translation.language == entries[i].1.lang)
  {
    FanOutShape(h, backend, text, timestamp, entries, LanguageIntended);
  }

  /**
   * The translations list of an accepted new_text, built with one append per
   * registered client, in registry order. A rejected key yields the fixed
   * error and no request to the translation service; otherwise the service
   * is asked (`requests`) only for clients whose language is not English.
   */
  method HandleNewText(h: MessageHandler, backend: Translator, text: string, timestamp: string,
                       apiKey: string, clientMap: DynamoClientMap)
    returns (r: NewTextResult, requests: seq<string>)
    requires clientMap.Valid()
    ensures r == NewText(h, backend, text, timestamp, apiKey, clientMap.cache.Entries())
    ensures requests == if ValidateApiKey(h, apiKey) then ServiceRequests(clientMap.cache.Entries()) else []
    ensures r.NewTextAccepted? ==> |r.translations| == |clientMap.cache.clients|
  {
    if !ValidateApiKey(h, apiKey) {
      return NewTextRejected(Unauthorized), [];
    }
    var entries := clientMap.GetAllClients();
    var translations;
    translations, requests := BuildTranslations(h, backend, text, timestamp, entries);
    r := NewTextAccepted(translations);
    FanOutShape(h, backend, text, timestamp, entries, LanguageIntended);
  }

  /** The loop of handle_new_text: one appended entry per client, translating only non-English targets. */
  method BuildTranslations(h: MessageHandler, backend: Translator, text: string, timestamp: string,
                           entries: seq<(ClientId, ClientInfo)>)
    returns (translations: seq<TranslationEntry>, requests: seq<string>)
    ensures translations == FanOut(h, backend, text, timestamp, entries, LanguageIntended)
    ensures requests == ServiceRequests(entries)
  {
    translations := [];
    requests := [];
    for i := 0 to |entries|
      invariant translations == FanOut(h, backend, text, timestamp, entries[..i], LanguageIntended)
      invariant requests == ServiceRequests(entries[..i])
    {
      var clientId := entries[i].0;
      var targetLanguage := entries[i].1.lang;
      var translatedText;
      if targetLanguage == "en" {
        translatedText := text;
      } else {
        translatedText := TranslateText(h.service, backend, text, targetLanguage);
        requests := requests + [targetLanguage];
      }
      translations := translations
        + [TranslationEntry(clientId, Translation(translatedText, text, timestamp, targetLanguage))];
      assert entries[..i + 1][..i] == entries[..i];
    }
    assert entries[..|entries|] == entries;
  }

  // --- request_translation and the reply constructors ----------------------

  /** The on-demand translation reply: the input, its translation and the requested language. */
  function HandleRequestTranslation(h: MessageHandler, backend: Translator, text: string,
                                    targetLanguage: string): (reply: Message)
    ensures TypeName(reply) == "translation_result"
    ensures DataField(ToJson(reply), "original") == Some(JStr(text))
    ensures DataField(ToJson(reply), "language") == Some(JStr(targetLanguage))
    ensures reply.TranslationResult? && (reply.translated == text
              || backend(text, "auto", targetLanguage) == Translated(reply.translated))
    ensures reply.TranslationResult? && reply.translated == TranslateText(h.service, backend, text, targetLanguage)
  {
    TranslationResult(text, TranslateText(h.service, backend, text, targetLanguage), targetLanguage)
  }

  /** `connection_status` carrying status "connected" and the service's availability. */
  function CreateConnectionStatusMessage(h: MessageHandler): (m: Message)
    ensures TypeField(ToJson(m)) == Some(JStr("connection_status"))
    ensures DataField(ToJson(m), "status") == Some(JStr("connected"))
    ensures DataField(ToJson(m), "aws_available") == Some(JBool(h.service.awsAvailable))
  {
    ConnectionStatus(h.service.awsAvailable)
  }

  /** `error` carrying the given text as `data.message`. */
  function CreateErrorMessage(errorText: string): (m: Message)
    ensures TypeField(ToJson(m)) == Some(JStr("error"))
    ensures DataField(ToJson(m), "message") == Some(JStr(errorText))
  {
    ErrorMessage(errorText)
  }
}
