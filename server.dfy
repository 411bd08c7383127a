/**
 * The Flask / Socket.IO variant of the broker: the same handlers over a
 * global `connected_clients` dict (sid -> preferred language), answering
 * through Socket.IO emits. An emit is recorded as (room, message): the
 * event name is the message's TypeName and its payload the message's Data.
 */
module FlaskServer {
  import opened Common
  import opened Protocol
  import opened ClientMap
  import opened MessageHandling

  /** A Socket.IO session id; each session is also a room of its own. */
  type Sid = string

  /** One emitted event: the room it goes to and the message. */
  type Emit = (Sid, Message)

  /** `data.get(key, default)` on an event payload whose values are strings. */
  function Get(data: map<string, string>, key: string, default: string): (v: string)
    ensures key in data ==> v == data[key]
    ensures key !in data ==> v == default
  {
    if key in data then data[key] else default
  }

  /** The translated_text emits of an accepted new_text, one per entry, in dict order. */
  function Broadcast(svc: TranslationService, backend: Translator, text: string, timestamp: string,
                     entries: seq<(Sid, string)>): seq<Emit>
  {
    if entries == [] then []
    else
      var last := entries[|entries| - 1];
      var translated := if last.1 == "en" then text else TranslateText(svc, backend, text, last.1);
      Broadcast(svc, backend, text, timestamp, entries[..|entries| - 1])
        + [(last.0, TranslatedText(Translation(translated, text, timestamp, last.1)))]
  }

  /**
   * Exactly one translated_text per entry, to that entry's room, carrying
   * the entry's language and the original text as is for English.
   */
  lemma {:induction false} BroadcastShape(svc: TranslationService, backend: Translator, text: string,
                                          timestamp: string, entries: seq<(Sid, string)>)
    ensures |Broadcast(svc, backend, text, timestamp, entries)| == |entries|
    ensures forall i :: 0 <= i < |entries| ==>
              var e := Broadcast(svc, backend, text, timestamp, entries)[i];
              && e.0 == entries[i].0 && e.1.TranslatedText?
              && e.1.translation.language == entries[i].1
              && e.1.translation.original == text && e.1.translation.timestamp == timestamp
              && e.1.translation.text
                   == (if entries[i].1 == "en" then text else TranslateText(svc, backend, text, entries[i].1))
  {
    if entries != [] {
      BroadcastShape(svc, backend, text, timestamp, entries[..|entries| - 1]);
    }
  }

  /**
   * The Flask server and the shared message handler send the same
   * translations: entry i of a broadcast carries what the handler builds
   * for a client registered with that language.
   */
  lemma BroadcastAgreesWithHandler(apiKey: Option<string>, awsAvailable: bool, backend: Translator, text: string,
                                   timestamp: string, entries: seq<(Sid, string)>, i: nat)
    requires i < |entries|
    ensures |Broadcast(TranslationService(awsAvailable), backend, text, timestamp, entries)| == |entries|
    ensures var h := MessageHandler(TranslationService(awsAvailable), apiKey);
            Broadcast(h.service, backend, text, timestamp, entries)[i]
              == (entries[i].0, TranslatedText(EntryFor(h, backend, text, timestamp, entries[i].0, entries[i].1)
                                                 .translation))
  {
    BroadcastShape(TranslationService(awsAvailable), backend, text, timestamp, entries);
  }

  class Server {
    /** API_KEY from the environment. */
    const apiKey: Option<string>
    /** Whether the Translate client could be created at start-up. */
    const awsAvailable: bool
    /** `connected_clients`: sid -> language. */
    var clients: map<Sid, string>
    /** The dict's keys in insertion order. */
    var order: seq<Sid>
    /** Every emit, in order. */
    var emits: seq<Emit>

    ghost predicate Valid()
      reads this
    {
      NoDup(order) && forall id :: id in clients <==> id in order
    }

    constructor (apiKey: Option<string>, awsAvailable: bool)
      ensures Valid() && this.apiKey == apiKey && this.awsAvailable == awsAvailable
      ensures clients == map[] && order == [] && emits == []
    {
      this.apiKey := apiKey;
      this.awsAvailable := awsAvailable;
      clients := map[];
      order := [];
      emits := [];
    }

    /**
     * translate_text: the same fallbacks as the shared translation service,
     * with the server's own availability flag.
     */
    function Translate(backend: Translator, text: string, targetLanguage: string,
                       sourceLanguage: string := "auto"): (r: string)
      ensures !awsAvailable || targetLanguage == "en" ==> r == text
      ensures r != text ==> backend(text, sourceLanguage, targetLanguage) == Translated(r)
      ensures awsAvailable && targetLanguage != "en" && backend(text, sourceLanguage, targetLanguage).Translated?
              ==> r == backend(text, sourceLanguage, targetLanguage).text
    {
      TranslateText(TranslationService(awsAvailable), backend, text, targetLanguage, sourceLanguage)
    }

    /** connect: the sid starts as an English viewer and is told the service status. */
    method HandleConnect(sid: Sid)
      requires Valid()
      modifies this
      ensures Valid()
      ensures clients == old(clients)[sid := "en"]
      ensures order == if sid in old(clients) then old(order) else old(order) + [sid]
      ensures emits == old(emits) + [(sid, ConnectionStatus(awsAvailable))]
    {
      if sid !in clients {
        order := order + [sid];
      }
      clients := clients[sid := "en"];
      emits := emits + [(sid, ConnectionStatus(awsAvailable))];
    }

    /** disconnect: forgets the sid if known; emits nothing. */
    method HandleDisconnect(sid: Sid)
      requires Valid()
      modifies this
      ensures Valid()
      ensures clients == old(clients) - {sid}
      ensures order == Without(old(order), sid)
      ensures emits == old(emits)
    {
      if sid in clients {
        WithoutNoDup(order, sid);
        clients := clients - {sid};
        order := Without(order, sid);
      }
    }

    /** set_language: only a known sid is updated and told; an unknown one changes nothing and hears nothing. */
    method HandleSetLanguage(sid: Sid, data: map<string, string>)
      requires Valid()
      modifies this
      ensures Valid()
      ensures order == old(order)
      ensures sid in old(clients) ==>
                clients == old(clients)[sid := Get(data, "language", "en")]
                && emits == old(emits) + [(sid, LanguageSet(Get(data, "language", "en")))]
      ensures sid !in old(clients) ==> clients == old(clients) && emits == old(emits)
    {
      var language := Get(data, "language", "en");
      if sid in clients {
        clients := clients[sid := language];
        emits := emits + [(sid, LanguageSet(language))];
      }
    }

    /** Whether new_text is accepted: any key when API_KEY is unset or empty, else exactly API_KEY. */
    function Accepts(data: map<string, string>): (ok: bool)
      ensures ok <==> ValidateApiKey(MessageHandler(TranslationService(awsAvailable), apiKey),
                                     Get(data, "api_key", ""))
      ensures !Truthy(apiKey) ==> ok
    {
      !Truthy(apiKey) || Get(data, "api_key", "") == apiKey.value
    }

    /**
     * new_text: a missing or wrong key, while API_KEY is set, produces one
     * error emit to the sender and nothing else; otherwise every connected
     * client gets one translated_text in its own language.
     */
    method HandleNewText(sid: Sid, data: map<string, string>, backend: Translator)
      requires Valid()
      modifies this
      ensures Valid()
      ensures clients == old(clients) && order == old(order)
      ensures !Accepts(data) ==> emits == old(emits) + [(sid, ErrorMessage(Unauthorized))]
      ensures Accepts(data) ==>
                emits == old(emits) + Broadcast(TranslationService(awsAvailable), backend,
                                                Get(data, "text", ""), Get(data, "timestamp", ""), Items(old(order), old(clients)))
    {
      if Truthy(apiKey) {
        var providedKey := Get(data, "api_key", "");
        if providedKey != apiKey.value {
          emits := emits + [(sid, ErrorMessage(Unauthorized))];
          return;
        }
      }
      var originalText := Get(data, "text", "");
      var timestamp := Get(data, "timestamp", "");
      var entries := Items(order, clients);
      EmitTranslations(entries, originalText, timestamp, backend);
    }

    /** The loop of an accepted new_text: one translated_text per entry, to its room. */
    method EmitTranslations(entries: seq<(Sid, string)>, originalText: string, timestamp: string,
                            backend: Translator)
      modifies this
      ensures clients == old(clients) && order == old(order)
      ensures emits == old(emits) + Broadcast(TranslationService(awsAvailable), backend, originalText, timestamp,
                                              entries)
    {
      ghost var svc := TranslationService(awsAvailable);
      for i := 0 to |entries|
        invariant clients == old(clients) && order == old(order)
        invariant emits == old(emits) + Broadcast(svc, backend, originalText, timestamp, entries[..i])
      {
        var (clientId, targetLanguage) := entries[i];
        var translatedText;
        if targetLanguage == "en" {
          translatedText := originalText;
        } else {
          translatedText := Translate(backend, originalText, targetLanguage);
        }
        emits := emits + [(clientId, TranslatedText(Translation(translatedText, originalText, timestamp,
                                                                  targetLanguage)))];
        assert entries[..i + 1][..i] == entries[..i];
      }
      assert entries[..|entries|] == entries;
    }

    /** request_translation: the sender gets the text, its translation and the target (default "en"). */
    method HandleRequestTranslation(sid: Sid, data: map<string, string>, backend: Translator)
      modifies this
      ensures clients == old(clients) && order == old(order)
      ensures emits == old(emits) + [(sid, TranslationResult(Get(data, "text", ""),
                                                               Translate(backend, Get(data, "text", ""),
                                                                         Get(data, "target_language", "en")),
                                                               Get(data, "target_language", "en")))]
      ensures emits[|old(emits)|].1
                == MessageHandling.HandleRequestTranslation(MessageHandler(TranslationService(awsAvailable), apiKey),
                                                            backend, Get(data, "text", ""),
                                                            Get(data, "target_language", "en"))
    {
      var text := Get(data, "text", "");
      var targetLanguage := Get(data, "target_language", "en");
      var translatedText := Translate(backend, text, targetLanguage);
      emits := emits + [(sid, TranslationResult(text, translatedText, targetLanguage))];
    }
  }

  /** The rooms of a broadcast over the dict's entries are the dict's keys, in order. */
  lemma BroadcastRooms(svc: TranslationService, backend: Translator, text: string, timestamp: string,
                       order: seq<Sid>, clients: map<Sid, string>)
    requires forall id :: id in order ==> id in clients
    ensures var b := Broadcast(svc, backend, text, timestamp, Items(order, clients));
            |b| == |order| && forall i :: 0 <= i < |b| ==> b[i].0 == order[i]
  {
    BroadcastShape(svc, backend, text, timestamp, Items(order, clients));
  }

  /** Every connected client, and no one else, hears an accepted new_text, once. */
  lemma NewTextReachesEachClientOnce(svc: TranslationService, backend: Translator, text: string, timestamp: string,
                                     order: seq<Sid>, clients: map<Sid, string>, sid: Sid)
    requires NoDup(order) && forall id :: id in clients <==> id in order
    ensures var b := Broadcast(svc, backend, text, timestamp, Items(order, clients));
            (sid in clients <==> exists i :: 0 <= i < |b| && b[i].0 == sid)
            && forall i, j :: 0 <= i < j < |b| ==> b[i].0 != b[j].0
  {
    BroadcastRooms(svc, backend, text, timestamp, order, clients);
    var b := Broadcast(svc, backend, text, timestamp, Items(order, clients));
    if sid in clients {
      var k :| 0 <= k < |order| && order[k] == sid;
      assert b[k].0 == sid;
    }
  }
}
