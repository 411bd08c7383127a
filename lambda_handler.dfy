/**
 * The serverless front end: API Gateway WebSocket events routed to the
 * connect, disconnect and message handlers over the DynamoDB-backed
 * registry, with every reply posted back through the gateway. A post to a
 * connection the gateway reports gone removes that connection.
 */
module LambdaHandling {
  import opened Common
  import opened Protocol
  import opened ClientMap
  import opened MessageHandling

  /** How one post_to_connection ends. */
  datatype PostOutcome =
    | Delivered
    /** A ClientError whose code is GoneException. */
    | Gone
    /** Any other ClientError. */
    | PostClientError
    /** Any other exception. */
    | PostException

  /** The gateway: (connection id, message) -> how posting it ends. */
  type Gateway = (ClientId, Message) -> PostOutcome

  /** For each id, whether the registry's table raises a ClientError on it. */
  type TableFaults = ClientId -> bool

  /** One attempted post: the target connection and the message. */
  type Post = (ClientId, Message)

  datatype Response = Response(statusCode: int, body: string)

  const Processed: Response := Response(200, "Message processed")

  /** json.loads of the event body ("{}" when the event carries none). */
  datatype Body = InvalidJson | Parsed(json: Json)

  datatype Event = Event(routeKey: string, connectionId: ClientId, body: Body)

  // -------------------------------------------------------------------------
  // What a sequence of posts does to the registry
  // -------------------------------------------------------------------------

  /** The targets among `ps` whose post ended with GoneException. */
  function GoneIds(gateway: Gateway, ps: seq<Post>): set<ClientId>
  {
    if ps == [] then {}
    else
      var p := ps[|ps| - 1];
      GoneIds(gateway, ps[..|ps| - 1]) + (if gateway(p.0, p.1) == Gone then {p.0} else {})
  }

  /** An id is gone exactly when some post to it ended with GoneException. */
  lemma {:induction false} GoneIdsMembers(gateway: Gateway, ps: seq<Post>, id: ClientId)
    ensures id in GoneIds(gateway, ps) <==>
              exists k :: 0 <= k < |ps| && ps[k].0 == id && gateway(ps[k].0, ps[k].1) == Gone
  {
    if ps != [] {
      var front := ps[..|ps| - 1];
      GoneIdsMembers(gateway, front, id);
      if exists k :: 0 <= k < |front| && front[k].0 == id && gateway(front[k].0, front[k].1) == Gone {
        var k :| 0 <= k < |front| && front[k].0 == id && gateway(front[k].0, front[k].1) == Gone;
        assert ps[k] == front[k];
      }
    }
  }

  lemma {:induction false} GoneIdsAppend(gateway: Gateway, a: seq<Post>, b: seq<Post>)
    ensures GoneIds(gateway, a + b) == GoneIds(gateway, a) + GoneIds(gateway, b)
  {
    if b == [] {
      assert a + b == a;
    } else {
      var front := b[..|b| - 1];
      GoneIdsAppend(gateway, a, front);
      assert (a + b)[..|a + b| - 1] == a + front;
    }
  }

  /** The table items a deletion of `ids` removes: those whose table call succeeds. */
  function TableDeleted(ids: set<ClientId>, tableFault: TableFaults): set<ClientId>
  {
    set id | id in ids && !tableFault(id)
  }

  /** Pruning by a then by b is pruning by a + b, in the cache, its order and the table. */
  lemma PruneTwice(c0: map<ClientId, ClientInfo>, o0: seq<ClientId>, t0: map<ClientId, TableItem>,
                   a: set<ClientId>, b: set<ClientId>, tableFault: TableFaults)
    ensures (c0 - a) - b == c0 - (a + b)
    ensures RemoveAll(RemoveAll(o0, a), b) == RemoveAll(o0, a + b)
    ensures (t0 - TableDeleted(a, tableFault)) - TableDeleted(b, tableFault)
              == t0 - TableDeleted(a + b, tableFault)
  {
    RemoveAllTwice(o0, a, b);
    assert TableDeleted(a + b, tableFault) == TableDeleted(a, tableFault) + TableDeleted(b, tableFault);
  }

  // -------------------------------------------------------------------------
  // Broadcast and new_text fan-out, as sequences of posts
  // -------------------------------------------------------------------------

  /** The posts a broadcast makes: the message to every entry but the excluded one, in registry order. */
  function BroadcastPosts(entries: seq<(ClientId, ClientInfo)>, msg: Message, exclude: Option<ClientId>): seq<Post>
  {
    if entries == [] then []
    else
      var id := entries[|entries| - 1].0;
      BroadcastPosts(entries[..|entries| - 1], msg, exclude) + PostTo(id, msg, exclude)
  }

  /** The post the broadcast loop makes for one entry: none for the excluded id. */
  function PostTo(id: ClientId, msg: Message, exclude: Option<ClientId>): seq<Post>
  {
    if exclude == Some(id) then [] else [(id, msg)]
  }

  /** What the broadcast loop appends to failed_connections for one entry. */
  function FailureOf(gateway: Gateway, id: ClientId, msg: Message, exclude: Option<ClientId>): seq<ClientId>
  {
    if exclude == Some(id) || gateway(id, msg) == Delivered then [] else [id]
  }

  /** The `failed_connections` list: the ids, in order, whose post was not delivered. */
  function FailedConnections(gateway: Gateway, entries: seq<(ClientId, ClientInfo)>, msg: Message,
                             exclude: Option<ClientId>): seq<ClientId>
  {
    if entries == [] then []
    else
      var id := entries[|entries| - 1].0;
      FailedConnections(gateway, entries[..|entries| - 1], msg, exclude)
        + FailureOf(gateway, id, msg, exclude)
  }

  function Ids(s: seq<ClientId>): set<ClientId>
  {
    set x | x in s
  }

  lemma IdsSnoc(s: seq<ClientId>, x: ClientId)
    ensures Ids(s + [x]) == Ids(s) + {x}
  {
  }

  lemma IdsAppend(a: seq<ClientId>, b: seq<ClientId>)
    ensures Ids(a + b) == Ids(a) + Ids(b)
  {
  }

  /** The entry's post can only find its target gone when that post also counts as failed. */
  lemma EntryGoneWithinFailed(gateway: Gateway, id: ClientId, msg: Message, exclude: Option<ClientId>)
    ensures GoneIds(gateway, PostTo(id, msg, exclude)) <= Ids(FailureOf(gateway, id, msg, exclude))
  {
    if exclude != Some(id) {
      assert PostTo(id, msg, exclude)[..0] == [];
    }
  }

  /**
   * A broadcast posts `msg` once to every registered client except the
   * excluded one, and nothing else; it records as failed exactly the
   * clients whose post was not delivered.
   */
  lemma {:induction false} BroadcastReachesAllButExcluded(gateway: Gateway, entries: seq<(ClientId, ClientInfo)>,
                                                          msg: Message, exclude: Option<ClientId>, id: ClientId)
    ensures (id, msg) in BroadcastPosts(entries, msg, exclude) <==>
              exclude != Some(id) && exists i :: 0 <= i < |entries| && entries[i].0 == id
    ensures forall p :: p in BroadcastPosts(entries, msg, exclude) ==> p.1 == msg && exclude != Some(p.0)
    ensures id in FailedConnections(gateway, entries, msg, exclude) <==>
              exclude != Some(id) && gateway(id, msg) != Delivered
              && exists i :: 0 <= i < |entries| && entries[i].0 == id
  {
    PostsReachAllButExcluded(entries, msg, exclude, id);
    FailuresAreUndelivered(gateway, entries, msg, exclude, id);
  }

  /** Some entry is for `id`. */
  predicate Registered(entries: seq<(ClientId, ClientInfo)>, id: ClientId)
  {
    exists i :: 0 <= i < |entries| && entries[i].0 == id
  }

  /** An id is among the entries exactly when it is among all but the last, or is the last. */
  lemma RegisteredSnoc(entries: seq<(ClientId, ClientInfo)>, id: ClientId)
    requires entries != []
    ensures Registered(entries, id) <==>
              Registered(entries[..|entries| - 1], id) || entries[|entries| - 1].0 == id
  {
    var front := entries[..|entries| - 1];
    if Registered(front, id) {
      var i :| 0 <= i < |front| && front[i].0 == id;
      assert entries[i] == front[i];
    }
  }

  lemma {:induction false} PostsReachAllButExcluded(entries: seq<(ClientId, ClientInfo)>, msg: Message,
                                                    exclude: Option<ClientId>, id: ClientId)
    ensures (id, msg) in BroadcastPosts(entries, msg, exclude) <==>
              exclude != Some(id) && exists i :: 0 <= i < |entries| && entries[i].0 == id
    ensures forall p :: p in BroadcastPosts(entries, msg, exclude) ==> p.1 == msg && exclude != Some(p.0)
  {
    if entries != [] {
      PostsReachAllButExcluded(entries[..|entries| - 1], msg, exclude, id);
      RegisteredSnoc(entries, id);
    }
  }

  lemma {:induction false} FailuresAreUndelivered(gateway: Gateway, entries: seq<(ClientId, ClientInfo)>,
                                                  msg: Message, exclude: Option<ClientId>, id: ClientId)
    ensures id in FailedConnections(gateway, entries, msg, exclude) <==>
              exclude != Some(id) && gateway(id, msg) != Delivered
              && exists i :: 0 <= i < |entries| && entries[i].0 == id
  {
    if entries != [] {
      FailuresAreUndelivered(gateway, entries[..|entries| - 1], msg, exclude, id);
      RegisteredSnoc(entries, id);
    }
  }

  /** One more entry adds at most one post and at most one failure, for that entry. */
  lemma BroadcastStep(gateway: Gateway, entries: seq<(ClientId, ClientInfo)>, i: nat, msg: Message,
                      exclude: Option<ClientId>)
    requires i < |entries|
    ensures BroadcastPosts(entries[..i + 1], msg, exclude)
              == BroadcastPosts(entries[..i], msg, exclude) + PostTo(entries[i].0, msg, exclude)
    ensures FailedConnections(gateway, entries[..i + 1], msg, exclude)
              == FailedConnections(gateway, entries[..i], msg, exclude)
                 + FailureOf(gateway, entries[i].0, msg, exclude)
  {
    assert entries[..i + 1][..i] == entries[..i];
  }

  /** A client dropped for being gone is always among the failed ones. */
  lemma {:induction false} GoneWithinFailed(gateway: Gateway, entries: seq<(ClientId, ClientInfo)>, msg: Message,
                                            exclude: Option<ClientId>)
    ensures GoneIds(gateway, BroadcastPosts(entries, msg, exclude))
              <= Ids(FailedConnections(gateway, entries, msg, exclude))
  {
    if entries != [] {
      var front := entries[..|entries| - 1];
      var id := entries[|entries| - 1].0;
      GoneWithinFailed(gateway, front, msg, exclude);
      GoneIdsAppend(gateway, BroadcastPosts(front, msg, exclude), PostTo(id, msg, exclude));
      IdsAppend(FailedConnections(gateway, front, msg, exclude), FailureOf(gateway, id, msg, exclude));
      EntryGoneWithinFailed(gateway, id, msg, exclude);
    }
  }

  /** The translated_text posts of an accepted new_text, in the order of its translations list. */
  function TranslatedPosts(ts: seq<TranslationEntry>): (ps: seq<Post>)
    ensures |ps| == |ts|
    ensures forall i :: 0 <= i < |ts| ==> ps[i] == (ts[i].clientId, TranslatedText(ts[i].translation))
  {
    if ts == [] then []
    else
      var last := ts[|ts| - 1];
      TranslatedPosts(ts[..|ts| - 1]) + [(last.clientId, TranslatedText(last.translation))]
  }

  // -------------------------------------------------------------------------
  // handle_message, specified
  // -------------------------------------------------------------------------

  /** What handle_message makes of the body before acting on it. */
  datatype Request =
    | BadJson
    /**
     * A body the handler fails on with an exception (not an object, a
     * non-object `data`), and, in this model, one whose known string field
     * holds a non-string value (which the handler itself passes on).
     */
    | Malformed
    | SetLanguageRequest(language: string)
    | NewTextRequest(text: string, timestamp: string, apiKey: string)
    | TranslateRequest(text: string, targetLanguage: string)
    | UnknownTypeRequest(typeText: string)

  /** `message.get("type")`. */
  function MsgType(fields: map<string, Json>): Option<Json>
  {
    if "type" in fields then Some(fields["type"]) else None
  }

  /**
   * How an f-string renders the `type` value; lists and objects are
   * abbreviated to "[...]" and "{...}" rather than rendered as `str()` does.
   */
  function TypeText(v: Option<Json>): string
  {
    match v
    case None => "None"
    case Some(JNull) => "None"
    case Some(JBool(b)) => if b then "True" else "False"
    case Some(JNum(n)) => if n < 0 then "-" + Decimal(-n) else Decimal(n)
    case Some(JStr(s)) => s
    case Some(JArr(_)) => "[...]"
    case Some(JObj(_)) => "{...}"
  }

  function ParseRequest(body: Body): (q: Request)
    ensures q.BadJson? <==> body.InvalidJson?
    ensures q.SetLanguageRequest? ==>
              body.Parsed? && body.json.JObj? && MsgType(body.json.fields) == Some(JStr("set_language"))
    ensures q.NewTextRequest? ==>
              body.Parsed? && body.json.JObj? && MsgType(body.json.fields) == Some(JStr("new_text"))
    ensures q.TranslateRequest? ==>
              body.Parsed? && body.json.JObj? && MsgType(body.json.fields) == Some(JStr("request_translation"))
    ensures q.UnknownTypeRequest? <==>
              body.Parsed? && body.json.JObj?
              && MsgType(body.json.fields) !in
                   {Some(JStr("set_language")), Some(JStr("new_text")), Some(JStr("request_translation"))}
    ensures q.UnknownTypeRequest? ==> q.typeText == TypeText(MsgType(body.json.fields))
  {
    match body
    case InvalidJson => BadJson
    case Parsed(j) =>
      if !j.JObj? then Malformed
      else
        var t := MsgType(j.fields);
        var data := if "data" in j.fields then j.fields["data"] else JObj(map[]);
        if t == Some(JStr("set_language")) then
          if !data.JObj? then Malformed
          else match ReadString(data.fields, "language", "en")
            case Some(l) => SetLanguageRequest(l)
            case None => Malformed
        else if t == Some(JStr("new_text")) then
          if !data.JObj? then Malformed
          else
            var text := ReadString(data.fields, "text", "");
            var ts := ReadString(data.fields, "timestamp", "");
            var key := ReadString(data.fields, "api_key", "");
            if text.Some? && ts.Some? && key.Some? then NewTextRequest(text.value, ts.value, key.value)
            else Malformed
        else if t == Some(JStr("request_translation")) then
          if !data.JObj? then Malformed
          else
            var text := ReadString(data.fields, "text", "");
            var target := ReadString(data.fields, "target_language", "en");
            if text.Some? && target.Some? then TranslateRequest(text.value, target.value)
            else Malformed
        else UnknownTypeRequest(TypeText(t))
  }

  /** Missing `data` or missing fields take the handler's defaults. */
  lemma MissingFieldsTakeDefaults()
    ensures ParseRequest(Parsed(JObj(map[]))) == UnknownTypeRequest("None")
    ensures ParseRequest(Parsed(JObj(map["type" := JStr("set_language")]))) == SetLanguageRequest("en")
    ensures ParseRequest(Parsed(JObj(map["type" := JStr("new_text")]))) == NewTextRequest("", "", "")
    ensures ParseRequest(Parsed(JObj(map["type" := JStr("request_translation")])))
              == TranslateRequest("", "en")
  {
    assert "data" !in map["type" := JStr("set_language")];
  }

  /** The reply a set_language request receives: the new language, or the update error. */
  function LanguageReply(language: string, fault: bool): Message
  {
    if fault then ErrorMessage(LanguageUpdateFailed) else LanguageSet(language)
  }

  /** The posts handle_message makes for a request from `c`, given the registry entries it starts from. */
  function ExpectedPosts(q: Request, c: ClientId, h: MessageHandler, backend: Translator,
                         tableFault: TableFaults, entries: seq<(ClientId, ClientInfo)>): seq<Post>
  {
    match q
    case BadJson => []
    case Malformed => []
    case SetLanguageRequest(l) =>
      [(c, LanguageReply(l, tableFault(c))), (c, CreateConnectionStatusMessage(h))]
    case NewTextRequest(text, ts, key) =>
      (match NewText(h, backend, text, ts, key, entries)
       case NewTextRejected(err) => [(c, CreateErrorMessage(err))]
       case NewTextAccepted(translations) => TranslatedPosts(translations))
    case TranslateRequest(text, target) => [(c, HandleRequestTranslation(h, backend, text, target))]
    case UnknownTypeRequest(t) => [(c, CreateErrorMessage("Unknown message type: " + t))]
  }

  function ExpectedResponse(q: Request, h: MessageHandler, key: string): Response
  {
    match q
    case BadJson => Response(400, "Invalid JSON")
    case Malformed => Response(500, "Internal server error")
    case NewTextRequest(_, _, k) => if ValidateApiKey(h, k) then Processed else Response(401, "Unauthorized")
    case _ => Processed
  }

  /**
   * A rejected new_text answers 401 and only tells the sender why; an
   * accepted one answers 200 and posts one translated_text to every
   * registered client, each in the language the registry stores for it.
   */
  lemma NewTextPostsPerClient(c: ClientId, h: MessageHandler, backend: Translator, tableFault: TableFaults,
                              entries: seq<(ClientId, ClientInfo)>, text: string, ts: string, key: string)
    ensures var q := NewTextRequest(text, ts, key);
            var ps := ExpectedPosts(q, c, h, backend, tableFault, entries);
            && (!ValidateApiKey(h, key) ==>
                  ExpectedResponse(q, h, key) == Response(401, "Unauthorized")
                  && ps == [(c, ErrorMessage(Unauthorized))])
            && (ValidateApiKey(h, key) ==>
                  ExpectedResponse(q, h, key) == Processed
                  && |ps| == |entries|
                  && forall i :: 0 <= i < |entries| ==>
                       ps[i].0 == entries[i].0 && ps[i].1.TranslatedText?
                       && ps[i].1.translation.language == entries[i].1.lang
                       && ps[i].1.translation.original == text)
  {
    NewTextShape(h, backend, text, ts, key, entries);
  }

  /** Every request but an accepted new_text answers the sender alone; only new_text can answer 401. */
  lemma RepliesGoToSender(q: Request, c: ClientId, h: MessageHandler, backend: Translator,
                          tableFault: TableFaults, entries: seq<(ClientId, ClientInfo)>)
    requires !q.NewTextRequest? || !ValidateApiKey(h, q.apiKey)
    ensures forall p :: p in ExpectedPosts(q, c, h, backend, tableFault, entries) ==> p.0 == c
    ensures ExpectedResponse(q, h, "").statusCode == 401 <==> q.NewTextRequest?
  {
  }

  /** The registry's cache after update_language, when the table call fails or not. */
  function WithLanguage(clients: map<ClientId, ClientInfo>, id: ClientId, language: string, fault: bool)
    : map<ClientId, ClientInfo>
  {
    if !fault && id in clients then clients[id := clients[id].(lang := language)] else clients
  }

  /** The registry's table after update_language, when the table call fails or not. */
  function TableWithLanguage(table: map<ClientId, TableItem>, id: ClientId, language: string, fault: bool)
    : map<ClientId, TableItem>
  {
    if fault then table
    else table[id := if id in table then table[id].(lang := Some(language)) else TableItem(Some(language), None)]
  }

  // -------------------------------------------------------------------------
  // The handler, over its registry and the log of its posts
  // -------------------------------------------------------------------------

  class LambdaApp {
    const handler: MessageHandler
    const registry: DynamoClientMap
    /** Every post_to_connection attempted, in order. */
    var posts: seq<Post>

    ghost predicate Valid()
      reads registry, registry.cache
    {
      registry.Valid()
    }

    constructor (handler: MessageHandler, registry: DynamoClientMap)
      requires registry.Valid()
      ensures Valid() && this.handler == handler && this.registry == registry && posts == []
    {
      this.handler := handler;
      this.registry := registry;
      posts := [];
    }

    /**
     * The registry is (c0, o0, t0) with the ids in `gone` removed: from the
     * cache and its key order always, from the table where its call succeeds.
     */
    ghost predicate PrunedFrom(c0: map<ClientId, ClientInfo>, o0: seq<ClientId>, t0: map<ClientId, TableItem>,
                               gone: set<ClientId>, tableFault: TableFaults)
      reads registry, registry.cache
    {
      && registry.cache.clients == c0 - gone
      && registry.cache.order == RemoveAll(o0, gone)
      && registry.table == t0 - TableDeleted(gone, tableFault)
    }

    /** Pruning by no ids leaves the registry as it is. */
    lemma NothingPruned(tableFault: TableFaults)
      ensures PrunedFrom(registry.cache.clients, registry.cache.order, registry.table, {}, tableFault)
    {
      RemoveAllNothing(registry.cache.order);
      assert TableDeleted({}, tableFault) == {};
    }

    /** Posts one message; a gone connection is removed from the registry. True only when delivered. */
    method SendMessageToConnection(connectionId: ClientId, msg: Message, gateway: Gateway, tableFault: TableFaults)
      returns (ok: bool)
      requires Valid()
      modifies this, registry, registry.cache
      ensures Valid()
      ensures posts == old(posts) + [(connectionId, msg)]
      ensures ok <==> gateway(connectionId, msg) == Delivered
      ensures PrunedFrom(old(registry.cache.clients), old(registry.cache.order), old(registry.table),
                         GoneIds(gateway, [(connectionId, msg)]), tableFault)
    {
      assert [(connectionId, msg)][..0] == [];
      assert GoneIds(gateway, [(connectionId, msg)])
               == if gateway(connectionId, msg) == Gone then {connectionId} else {};
      assert TableDeleted({}, tableFault) == {};
      posts := posts + [(connectionId, msg)];
      match gateway(connectionId, msg)
      case Delivered =>
        RemoveAllNothing(registry.cache.order);
        ok := true;
      case Gone =>
        WithoutIsRemoveAll(registry.cache.order, connectionId);
        registry.DeleteClient(connectionId, tableFault(connectionId));
        ok := false;
      case PostClientError =>
        RemoveAllNothing(registry.cache.order);
        ok := false;
      case PostException =>
        RemoveAllNothing(registry.cache.order);
        ok := false;
    }

    /**
     * A post made while the registry is (c0, o0, t0) pruned by `gone`: after
     * it, the registry is (c0, o0, t0) pruned by `gone` and this post's gone target.
     */
    method PostTracked(id: ClientId, msg: Message, gateway: Gateway, tableFault: TableFaults,
                       ghost c0: map<ClientId, ClientInfo>, ghost o0: seq<ClientId>,
                       ghost t0: map<ClientId, TableItem>, ghost sent: seq<Post>)
      returns (ok: bool)
      requires Valid()
      requires PrunedFrom(c0, o0, t0, GoneIds(gateway, sent), tableFault)
      modifies this, registry, registry.cache
      ensures Valid()
      ensures posts == old(posts) + [(id, msg)]
      ensures ok <==> gateway(id, msg) == Delivered
      ensures PrunedFrom(c0, o0, t0, GoneIds(gateway, sent + [(id, msg)]), tableFault)
    {
      ok := SendMessageToConnection(id, msg, gateway, tableFault);
      GoneIdsAppend(gateway, sent, [(id, msg)]);
      PruneTwice(c0, o0, t0, GoneIds(gateway, sent), GoneIds(gateway, [(id, msg)]), tableFault);
    }

    /** delete_client while the registry is (c0, o0, t0) pruned by `gone`: it is then pruned by gone + {id}. */
    method DeleteTracked(id: ClientId, tableFault: TableFaults,
                         ghost c0: map<ClientId, ClientInfo>, ghost o0: seq<ClientId>,
                         ghost t0: map<ClientId, TableItem>, ghost gone: set<ClientId>)
      requires Valid()
      requires PrunedFrom(c0, o0, t0, gone, tableFault)
      modifies registry, registry.cache
      ensures Valid()
      ensures PrunedFrom(c0, o0, t0, gone + {id}, tableFault)
    {
      WithoutIsRemoveAll(registry.cache.order, id);
      PruneTwice(c0, o0, t0, gone, {id}, tableFault);
      assert TableDeleted({id}, tableFault) == if tableFault(id) then {} else {id};
      registry.DeleteClient(id, tableFault(id));
    }

    /** One step of the first broadcast loop: skip the excluded id, else post and report a failure. */
    method PostUnlessExcluded(id: ClientId, msg: Message, gateway: Gateway, exclude: Option<ClientId>,
                              tableFault: TableFaults, ghost c0: map<ClientId, ClientInfo>, ghost o0: seq<ClientId>,
                              ghost t0: map<ClientId, TableItem>, ghost sent: seq<Post>)
      returns (fail: seq<ClientId>)
      requires Valid()
      requires PrunedFrom(c0, o0, t0, GoneIds(gateway, sent), tableFault)
      modifies this, registry, registry.cache
      ensures Valid()
      ensures posts == old(posts) + PostTo(id, msg, exclude)
      ensures fail == FailureOf(gateway, id, msg, exclude)
      ensures PrunedFrom(c0, o0, t0, GoneIds(gateway, sent + PostTo(id, msg, exclude)), tableFault)
    {
      fail := [];
      if exclude != Some(id) {
        var ok := PostTracked(id, msg, gateway, tableFault, c0, o0, t0, sent);
        if !ok {
          fail := [id];
        }
      } else {
        assert sent + [] == sent;
      }
    }

    /** Entry i of the first broadcast loop, stated as the step from prefix i to prefix i + 1. */
    method PostEntry(entries: seq<(ClientId, ClientInfo)>, i: nat, msg: Message, gateway: Gateway,
                     exclude: Option<ClientId>, tableFault: TableFaults, failed: seq<ClientId>,
                     ghost posts0: seq<Post>, ghost c0: map<ClientId, ClientInfo>, ghost o0: seq<ClientId>,
                     ghost t0: map<ClientId, TableItem>)
      returns (failed': seq<ClientId>)
      requires Valid() && i < |entries|
      requires posts == posts0 + BroadcastPosts(entries[..i], msg, exclude)
      requires failed == FailedConnections(gateway, entries[..i], msg, exclude)
      requires PrunedFrom(c0, o0, t0, GoneIds(gateway, BroadcastPosts(entries[..i], msg, exclude)), tableFault)
      modifies this, registry, registry.cache
      ensures Valid()
      ensures posts == posts0 + BroadcastPosts(entries[..i + 1], msg, exclude)
      ensures failed' == FailedConnections(gateway, entries[..i + 1], msg, exclude)
      ensures PrunedFrom(c0, o0, t0, GoneIds(gateway, BroadcastPosts(entries[..i + 1], msg, exclude)), tableFault)
    {
      BroadcastStep(gateway, entries, i, msg, exclude);
      var f := PostUnlessExcluded(entries[i].0, msg, gateway, exclude, tableFault, c0, o0, t0,
                                  BroadcastPosts(entries[..i], msg, exclude));
      failed' := failed + f;
    }

    /** The first loop of a broadcast: post to each entry but the excluded one, collecting the failures. */
    method PostToEntries(entries: seq<(ClientId, ClientInfo)>, msg: Message, gateway: Gateway,
                         exclude: Option<ClientId>, tableFault: TableFaults)
      returns (failed: seq<ClientId>)
      requires Valid()
      modifies this, registry, registry.cache
      ensures Valid()
      ensures posts == old(posts) + BroadcastPosts(entries, msg, exclude)
      ensures failed == FailedConnections(gateway, entries, msg, exclude)
      ensures PrunedFrom(old(registry.cache.clients), old(registry.cache.order), old(registry.table),
                         GoneIds(gateway, BroadcastPosts(entries, msg, exclude)), tableFault)
    {
      ghost var c0, o0, t0 := registry.cache.clients, registry.cache.order, registry.table;
      NothingPruned(tableFault);
      failed := [];
      for i := 0 to |entries|
        invariant Valid()
        invariant posts == old(posts) + BroadcastPosts(entries[..i], msg, exclude)
        invariant failed == FailedConnections(gateway, entries[..i], msg, exclude)
        invariant PrunedFrom(c0, o0, t0, GoneIds(gateway, BroadcastPosts(entries[..i], msg, exclude)), tableFault)
      {
        failed := PostEntry(entries, i, msg, gateway, exclude, tableFault, failed, old(posts), c0, o0, t0);
      }
      assert entries[..|entries|] == entries;
    }

    /** The second loop of a broadcast: delete every failed connection. */
    method DeleteFailed(failed: seq<ClientId>, tableFault: TableFaults,
                        ghost c0: map<ClientId, ClientInfo>, ghost o0: seq<ClientId>,
                        ghost t0: map<ClientId, TableItem>, ghost gone: set<ClientId>)
      requires Valid()
      requires PrunedFrom(c0, o0, t0, gone, tableFault)
      modifies registry, registry.cache
      ensures Valid()
      ensures PrunedFrom(c0, o0, t0, gone + Ids(failed), tableFault)
    {
      assert failed[..0] == [];
      assert gone + Ids([]) == gone;
      for j := 0 to |failed|
        invariant Valid()
        invariant PrunedFrom(c0, o0, t0, gone + Ids(failed[..j]), tableFault)
      {
        DeleteEntry(failed, j, tableFault, c0, o0, t0, gone);
      }
      assert failed[..|failed|] == failed;
    }

    /** Entry j of the second broadcast loop, stated as the step from prefix j to prefix j + 1. */
    method DeleteEntry(failed: seq<ClientId>, j: nat, tableFault: TableFaults,
                       ghost c0: map<ClientId, ClientInfo>, ghost o0: seq<ClientId>,
                       ghost t0: map<ClientId, TableItem>, ghost gone: set<ClientId>)
      requires Valid() && j < |failed|
      requires PrunedFrom(c0, o0, t0, gone + Ids(failed[..j]), tableFault)
      modifies registry, registry.cache
      ensures Valid()
      ensures PrunedFrom(c0, o0, t0, gone + Ids(failed[..j + 1]), tableFault)
    {
      IdsSnoc(failed[..j], failed[j]);
      assert failed[..j + 1] == failed[..j] + [failed[j]];
      DeleteTracked(failed[j], tableFault, c0, o0, t0, gone + Ids(failed[..j]));
      assert gone + Ids(failed[..j + 1]) == (gone + Ids(failed[..j])) + {failed[j]};
    }

    /**
     * Posts `msg` to every registered client but `exclude`, then deletes
     * every client whose post failed: the registry loses exactly the
     * failed clients (see BroadcastReachesAllButExcluded).
     */
    method BroadcastMessage(msg: Message, gateway: Gateway, exclude: Option<ClientId>, tableFault: TableFaults)
      requires Valid()
      modifies this, registry, registry.cache
      ensures Valid()
      ensures posts == old(posts) + BroadcastPosts(old(registry.cache.Entries()), msg, exclude)
      ensures PrunedFrom(old(registry.cache.clients), old(registry.cache.order), old(registry.table),
                         Ids(FailedConnections(gateway, old(registry.cache.Entries()), msg, exclude)), tableFault)
    {
      var entries := registry.GetAllClients();
      var failed := PostToEntries(entries, msg, gateway, exclude, tableFault);
      GoneWithinFailed(gateway, entries, msg, exclude);
      ghost var gone := GoneIds(gateway, BroadcastPosts(entries, msg, exclude));
      DeleteFailed(failed, tableFault, old(registry.cache.clients), old(registry.cache.order), old(registry.table), gone);
      assert gone + Ids(failed) == Ids(failed);
    }

    /** $connect: registers the connection as an English viewer; 500 when the table write fails. */
    method HandleConnect(event: Event, tableFault: TableFaults) returns (resp: Response)
      requires Valid()
      modifies registry, registry.cache
      ensures Valid()
      ensures var c := event.connectionId;
              && resp == (if tableFault(c) then Response(500, "Failed to connect") else Response(200, "Connected"))
              && (tableFault(c) ==>
                    registry.cache.clients == old(registry.cache.clients)
                    && registry.table == old(registry.table) && registry.cache.order == old(registry.cache.order))
              && (!tableFault(c) ==>
                    registry.cache.clients == old(registry.cache.clients)[c := ClientInfo("en", None, false)]
                    && registry.table == old(registry.table)[c := TableItem(Some("en"), Some(false))]
                    && registry.cache.order
                         == if c in old(registry.cache.clients) then old(registry.cache.order)
                            else old(registry.cache.order) + [c])
    {
      var ok := registry.AddClient(event.connectionId, "en", None, false, tableFault(event.connectionId));
      resp := if ok then Response(200, "Connected") else Response(500, "Failed to connect");
    }

    /** $disconnect: forgets the connection; always 200, a table error being only logged. */
    method HandleDisconnect(event: Event, tableFault: TableFaults) returns (resp: Response)
      requires Valid()
      modifies registry, registry.cache
      ensures Valid()
      ensures resp == Response(200, "Disconnected")
      ensures registry.cache.clients == old(registry.cache.clients) - {event.connectionId}
      ensures registry.cache.order == Without(old(registry.cache.order), event.connectionId)
      ensures registry.table == if tableFault(event.connectionId) then old(registry.table)
                                else old(registry.table) - {event.connectionId}
    {
      registry.DeleteClient(event.connectionId, tableFault(event.connectionId));
      resp := Response(200, "Disconnected");
    }

    /** The registry half of set_language: the language is recorded where the table call succeeds. */
    method ApplyLanguage(c: ClientId, language: string, tableFault: TableFaults) returns (reply: Message)
      requires Valid()
      modifies registry, registry.cache
      ensures Valid()
      ensures reply == LanguageReply(language, tableFault(c))
      ensures registry.cache.clients == WithLanguage(old(registry.cache.clients), c, language, tableFault(c))
      ensures registry.cache.order == old(registry.cache.order)
      ensures registry.table == TableWithLanguage(old(registry.table), c, language, tableFault(c))
    {
      reply := HandleSetLanguage(handler, c, language, registry, tableFault(c));
    }

    /** set_language: update the registry, answer the sender, then send it the connection status. */
    method ProcessSetLanguage(c: ClientId, language: string, gateway: Gateway, tableFault: TableFaults)
      returns (resp: Response)
      requires Valid()
      modifies this, registry, registry.cache
      ensures Valid()
      ensures resp == Processed
      ensures var sent := [(c, LanguageReply(language, tableFault(c))), (c, CreateConnectionStatusMessage(handler))];
              && posts == old(posts) + sent
              && PrunedFrom(WithLanguage(old(registry.cache.clients), c, language, tableFault(c)),
                            old(registry.cache.order),
                            TableWithLanguage(old(registry.table), c, language, tableFault(c)),
                            GoneIds(gateway, sent), tableFault)
    {
      var reply := ApplyLanguage(c, language, tableFault);
      var status := CreateConnectionStatusMessage(handler);
      SendTwo(c, reply, status, gateway, tableFault);
      resp := Processed;
    }

    /** Two posts to one connection, each dropping the connection if it is gone. */
    method SendTwo(c: ClientId, first: Message, second: Message, gateway: Gateway, tableFault: TableFaults)
      requires Valid()
      modifies this, registry, registry.cache
      ensures Valid()
      ensures posts == old(posts) + [(c, first), (c, second)]
      ensures PrunedFrom(old(registry.cache.clients), old(registry.cache.order), old(registry.table),
                         GoneIds(gateway, [(c, first), (c, second)]), tableFault)
    {
      ghost var c0, o0, t0 := registry.cache.clients, registry.cache.order, registry.table;
      NothingPruned(tableFault);
      var _ := PostTracked(c, first, gateway, tableFault, c0, o0, t0, []);
      assert [] + [(c, first)] == [(c, first)];
      var _ := PostTracked(c, second, gateway, tableFault, c0, o0, t0, [(c, first)]);
      assert [(c, first)] + [(c, second)] == [(c, first), (c, second)];
    }

    /** The loop over an accepted new_text's translations: one translated_text per entry, to its client. */
    method PostTranslations(ts: seq<TranslationEntry>, gateway: Gateway, tableFault: TableFaults)
      requires Valid()
      modifies this, registry, registry.cache
      ensures Valid()
      ensures posts == old(posts) + TranslatedPosts(ts)
      ensures PrunedFrom(old(registry.cache.clients), old(registry.cache.order), old(registry.table),
                         GoneIds(gateway, TranslatedPosts(ts)), tableFault)
    {
      ghost var c0, o0, t0 := registry.cache.clients, registry.cache.order, registry.table;
      NothingPruned(tableFault);
      for i := 0 to |ts|
        invariant Valid()
        invariant posts == old(posts) + TranslatedPosts(ts[..i])
        invariant PrunedFrom(c0, o0, t0, GoneIds(gateway, TranslatedPosts(ts[..i])), tableFault)
      {
        PostTranslation(ts, i, gateway, tableFault, old(posts), c0, o0, t0);
      }
      assert ts[..|ts|] == ts;
    }

    /** Entry i of the translation loop, stated as the step from prefix i to prefix i + 1. */
    method PostTranslation(ts: seq<TranslationEntry>, i: nat, gateway: Gateway, tableFault: TableFaults,
                           ghost posts0: seq<Post>, ghost c0: map<ClientId, ClientInfo>, ghost o0: seq<ClientId>,
                           ghost t0: map<ClientId, TableItem>)
      requires Valid() && i < |ts|
      requires posts == posts0 + TranslatedPosts(ts[..i])
      requires PrunedFrom(c0, o0, t0, GoneIds(gateway, TranslatedPosts(ts[..i])), tableFault)
      modifies this, registry, registry.cache
      ensures Valid()
      ensures posts == posts0 + TranslatedPosts(ts[..i + 1])
      ensures PrunedFrom(c0, o0, t0, GoneIds(gateway, TranslatedPosts(ts[..i + 1])), tableFault)
    {
      assert ts[..i + 1][..i] == ts[..i];
      ghost var sent := TranslatedPosts(ts[..i]);
      var msg := TranslatedText(ts[i].translation);
      assert TranslatedPosts(ts[..i + 1]) == sent + [(ts[i].clientId, msg)];
      var _ := PostTracked(ts[i].clientId, msg, gateway, tableFault, c0, o0, t0, sent);
    }

    /** new_text: a rejected key answers the sender with the error and 401; otherwise one post per translation. */
    method ProcessNewText(c: ClientId, text: string, timestamp: string, apiKey: string, backend: Translator,
                          gateway: Gateway, tableFault: TableFaults) returns (resp: Response)
      requires Valid()
      modifies this, registry, registry.cache
      ensures Valid()
      ensures var r := NewText(handler, backend, text, timestamp, apiKey, old(registry.cache.Entries()));
              var sent := if r.NewTextRejected? then [(c, CreateErrorMessage(r.error))]
                          else TranslatedPosts(r.translations);
              && resp == (if r.NewTextRejected? then Response(401, "Unauthorized") else Processed)
              && posts == old(posts) + sent
              && PrunedFrom(old(registry.cache.clients), old(registry.cache.order), old(registry.table),
                            GoneIds(gateway, sent), tableFault)
    {
      ghost var c0, o0, t0 := registry.cache.clients, registry.cache.order, registry.table;
      var result, _ := HandleNewText(handler, backend, text, timestamp, apiKey, registry);
      if result.NewTextRejected? {
        var errorMsg := CreateErrorMessage(result.error);
        var _ := SendMessageToConnection(c, errorMsg, gateway, tableFault);
        return Response(401, "Unauthorized");
      }
      PostTranslations(result.translations, gateway, tableFault);
      resp := Processed;
    }

    /** Any request answered by one message to its sender (request_translation, an unknown type). */
    method ReplyToSender(c: ClientId, reply: Message, gateway: Gateway, tableFault: TableFaults)
      returns (resp: Response)
      requires Valid()
      modifies this, registry, registry.cache
      ensures Valid()
      ensures resp == Processed
      ensures posts == old(posts) + [(c, reply)]
      ensures PrunedFrom(old(registry.cache.clients), old(registry.cache.order), old(registry.table),
                         GoneIds(gateway, [(c, reply)]), tableFault)
    {
      var _ := SendMessageToConnection(c, reply, gateway, tableFault);
      resp := Processed;
    }

    /**
     * $default: the request's replies are posted as ExpectedPosts says and
     * answered as ExpectedResponse says; every post that finds its target
     * gone removes that target, after set_language has updated the sender.
     */
    method HandleMessage(event: Event, backend: Translator, gateway: Gateway, tableFault: TableFaults)
      returns (resp: Response)
      requires Valid()
      modifies this, registry, registry.cache
      ensures Valid()
      ensures var q := ParseRequest(event.body);
              var sent := ExpectedPosts(q, event.connectionId, handler, backend, tableFault,
                                        old(registry.cache.Entries()));
              && resp == ExpectedResponse(q, handler, if q.NewTextRequest? then q.apiKey else "")
              && posts == old(posts) + sent
              && (!q.SetLanguageRequest? ==>
                    PrunedFrom(old(registry.cache.clients), old(registry.cache.order), old(registry.table),
                               GoneIds(gateway, sent), tableFault))
              && (q.SetLanguageRequest? ==>
                    PrunedFrom(WithLanguage(old(registry.cache.clients), event.connectionId, q.language,
                                            tableFault(event.connectionId)),
                               old(registry.cache.order),
                               TableWithLanguage(old(registry.table), event.connectionId, q.language,
                                                 tableFault(event.connectionId)),
                               GoneIds(gateway, sent), tableFault))
    {
      var c := event.connectionId;
      var q := ParseRequest(event.body);
      match q
      case BadJson =>
        RemoveAllNothing(registry.cache.order);
        resp := Response(400, "Invalid JSON");
      case Malformed =>
        RemoveAllNothing(registry.cache.order);
        resp := Response(500, "Internal server error");
      case SetLanguageRequest(language) =>
        resp := ProcessSetLanguage(c, language, gateway, tableFault);
      case NewTextRequest(text, timestamp, key) =>
        resp := ProcessNewText(c, text, timestamp, key, backend, gateway, tableFault);
      case TranslateRequest(text, target) =>
        var reply := HandleRequestTranslation(handler, backend, text, target);
        resp := ReplyToSender(c, reply, gateway, tableFault);
      case UnknownTypeRequest(t) =>
        var errorMsg := CreateErrorMessage("Unknown message type: " + t);
        resp := ReplyToSender(c, errorMsg, gateway, tableFault);
    }

    /** lambda_handler: dispatch on the route key; any other route is refused with 400 and no effect. */
    method LambdaHandler(event: Event, backend: Translator, gateway: Gateway, tableFault: TableFaults)
      returns (resp: Response)
      requires Valid()
      modifies this, registry, registry.cache
      ensures Valid()
      ensures event.routeKey !in {"$connect", "$disconnect", "$default"} ==>
                resp == Response(400, "Unknown route: " + event.routeKey)
                && posts == old(posts) && unchanged(registry, registry.cache)
      ensures event.routeKey == "$connect" ==>
                var c := event.connectionId;
                && resp == (if tableFault(c) then Response(500, "Failed to connect") else Response(200, "Connected"))
                && posts == old(posts)
                && (tableFault(c) ==>
                      registry.cache.clients == old(registry.cache.clients)
                      && registry.table == old(registry.table) && registry.cache.order == old(registry.cache.order))
                && (!tableFault(c) ==>
                      registry.cache.clients == old(registry.cache.clients)[c := ClientInfo("en", None, false)]
                      && registry.table == old(registry.table)[c := TableItem(Some("en"), Some(false))]
                      && registry.cache.order
                           == if c in old(registry.cache.clients) then old(registry.cache.order)
                              else old(registry.cache.order) + [c])
      ensures event.routeKey == "$disconnect" ==>
                resp == Response(200, "Disconnected") && posts == old(posts)
                && registry.cache.clients == old(registry.cache.clients) - {event.connectionId}
                && registry.cache.order == Without(old(registry.cache.order), event.connectionId)
                && registry.table == if tableFault(event.connectionId) then old(registry.table)
                                     else old(registry.table) - {event.connectionId}
      ensures event.routeKey == "$default" ==>
                var q := ParseRequest(event.body);
                var sent := ExpectedPosts(q, event.connectionId, handler, backend, tableFault,
                                          old(registry.cache.Entries()));
                && resp == ExpectedResponse(q, handler, if q.NewTextRequest? then q.apiKey else "")
                && posts == old(posts) + sent
                && (!q.SetLanguageRequest? ==>
                      PrunedFrom(old(registry.cache.clients), old(registry.cache.order), old(registry.table),
                                 GoneIds(gateway, sent), tableFault))
                && (q.SetLanguageRequest? ==>
                      PrunedFrom(WithLanguage(old(registry.cache.clients), event.connectionId, q.language,
                                              tableFault(event.connectionId)),
                                 old(registry.cache.order),
                                 TableWithLanguage(old(registry.table), event.connectionId, q.language,
                                                   tableFault(event.connectionId)),
                                 GoneIds(gateway, sent), tableFault))
    {
      if event.routeKey == "$connect" {
        resp := HandleConnect(event, tableFault);
      } else if event.routeKey == "$disconnect" {
        resp := HandleDisconnect(event, tableFault);
      } else if event.routeKey == "$default" {
        resp := HandleMessage(event, backend, gateway, tableFault);
      } else {
        resp := Response(400, "Unknown route: " + event.routeKey);
      }
    }
  }
}
