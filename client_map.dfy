/**
 * The connection registry: client id -> {lang, ws, is_authorized_sender}.
 * TranslationClientMap keeps the entries in memory, in the insertion order a
 * Python dict keeps; DynamoClientMap layers that map, as a local cache, over
 * a remote table keyed by the same ids.
 */
module ClientMap {
  import opened Common

  type ClientId = string

  /** The opaque WebSocket object a caller may store with a client. */
  type Socket = nat

  datatype ClientInfo = ClientInfo(lang: string, ws: Option<Socket>, isAuthorizedSender: bool)

  class TranslationClientMap {
    /** The `_clients` dict. */
    var clients: map<ClientId, ClientInfo>
    /** The dict's keys in insertion order (a key keeps its place when re-added). */
    var order: seq<ClientId>

    ghost predicate Valid()
      reads this
    {
      NoDup(order) && forall id :: id in clients <==> id in order
    }

    /** The `(client_id, info)` pairs of the dict, in iteration order. */
    function Entries(): (es: seq<(ClientId, ClientInfo)>)
      reads this
      requires Valid()
      ensures |es| == |order|
    {
      Items(order, clients)
    }

    constructor ()
      ensures Valid() && clients == map[] && order == []
    {
      clients := map[];
      order := [];
    }

    /** Adds the client, or overwrites its entry: there is never more than one entry per id. */
    method AddClient(id: ClientId, language: string := "en", ws: Option<Socket> := None,
                     isAuthorizedSender: bool := false)
      requires Valid()
      modifies this
      ensures Valid()
      ensures clients == old(clients)[id := ClientInfo(language, ws, isAuthorizedSender)]
      ensures order == if id in old(clients) then old(order) else old(order) + [id]
    {
      if id !in clients {
        order := order + [id];
      }
      clients := clients[id := ClientInfo(language, ws, isAuthorizedSender)];
    }

    /** Removes the client if present; a missing id is a silent no-op. */
    method DeleteClient(id: ClientId)
      requires Valid()
      modifies this
      ensures Valid()
      ensures clients == old(clients) - {id}
      ensures order == Without(old(order), id)
      ensures id !in old(clients) ==> clients == old(clients) && order == old(order)
    {
      if id in clients {
        WithoutNoDup(order, id);
        clients := clients - {id};
        order := Without(order, id);
      }
    }

    method GetClient(id: ClientId) returns (r: Option<ClientInfo>)
      ensures r.Some? <==> id in clients
      ensures r.Some? ==> r.value == clients[id]
    {
      r := if id in clients then Some(clients[id]) else None;
    }

    /** A copy of the dict: every current key exactly once, in iteration order, with its entry. */
    method GetAllClients() returns (entries: seq<(ClientId, ClientInfo)>)
      requires Valid()
      ensures entries == Entries()
      ensures |entries| == |clients|
      ensures forall i :: 0 <= i < |entries| ==> entries[i].0 in clients && entries[i].1 == clients[entries[i].0]
      ensures forall id :: id in clients ==> exists i :: 0 <= i < |entries| && entries[i].0 == id
      ensures forall i, j :: 0 <= i < j < |entries| ==> entries[i].0 != entries[j].0
    {
      entries := Entries();
      OrderCoversKeys();
      forall id | id in clients
        ensures exists i :: 0 <= i < |entries| && entries[i].0 == id
      {
        var i :| 0 <= i < |order| && order[i] == id;
        assert entries[i].0 == id;
      }
    }

    /** Changes only the language of an existing client. */
    method UpdateLanguage(id: ClientId, language: string) returns (ok: bool)
      requires Valid()
      modifies this
      ensures Valid()
      ensures ok <==> id in old(clients)
      ensures ok ==> clients == old(clients)[id := old(clients)[id].(lang := language)]
      ensures !ok ==> clients == old(clients)
      ensures order == old(order)
    {
      if id in clients {
        clients := clients[id := clients[id].(lang := language)];
        return true;
      }
      return false;
    }

    method Count() returns (n: nat)
      requires Valid()
      ensures n == |clients|
      ensures n == |order|
    {
      n := |clients|;
      OrderCoversKeys();
    }

    method Exists(id: ClientId) returns (b: bool)
      ensures b <==> id in clients
    {
      b := id in clients;
    }

    /** The insertion-order list holds each key exactly once. */
    lemma OrderCoversKeys()
      requires Valid()
      ensures |clients| == |order|
    {
      NoDupCard(order);
      assert clients.Keys == set x | x in order;
    }
  }

  // -------------------------------------------------------------------------
  // The DynamoDB-backed map
  // -------------------------------------------------------------------------

  /**
   * A table item. put_item writes both attributes; update_item on an id that
   * has no item creates one holding only `lang`, so either may be missing.
   */
  datatype TableItem = TableItem(lang: Option<string>, isAuthorizedSender: Option<bool>)

  /** What get_client reports for an item found only in the table: no socket, defaults "en" and False. */
  function FromTable(item: TableItem): (r: ClientInfo)
    ensures r.ws == None
    ensures r.lang == (if item.lang.Some? then item.lang.value else "en")
    ensures r.isAuthorizedSender == (item.isAuthorizedSender.Some? && item.isAuthorizedSender.value)
  {
    ClientInfo(
      match item.lang case Some(l) => l case None => "en",
      None,
      match item.isAuthorizedSender case Some(a) => a case None => false)
  }

  /**
   * The DynamoDB subclass: `cache` is the inherited `_clients` dict and
   * `table` the remote table. Each table call either succeeds or raises a
   * ClientError; the `tableFault` argument of a method says which.
   */
  class DynamoClientMap {
    const cache: TranslationClientMap
    var table: map<ClientId, TableItem>

    ghost predicate Valid()
      reads this, cache
    {
      cache.Valid()
    }

    constructor (existing: map<ClientId, TableItem>)
      ensures Valid() && fresh(cache)
      ensures cache.clients == map[] && cache.order == [] && table == existing
    {
      cache := new TranslationClientMap();
      table := existing;
    }

    /**
     * Writes the table, then the cache. A ClientError from the table is
     * re-raised (ok == false) before the cache is touched.
     */
    method AddClient(id: ClientId, language: string, ws: Option<Socket>, isAuthorizedSender: bool,
                     tableFault: bool) returns (ok: bool)
      requires Valid()
      modifies this, cache
      ensures Valid()
      ensures ok == !tableFault
      ensures ok ==> table == old(table)[id := TableItem(Some(language), Some(isAuthorizedSender))]
      ensures ok ==> cache.clients == old(cache.clients)[id := ClientInfo(language, ws, isAuthorizedSender)]
      ensures ok ==> cache.order == if id in old(cache.clients) then old(cache.order) else old(cache.order) + [id]
      ensures !ok ==> table == old(table) && cache.clients == old(cache.clients) && cache.order == old(cache.order)
    {
      if tableFault {
        return false;
      }
      table := table[id := TableItem(Some(language), Some(isAuthorizedSender))];
      cache.AddClient(id, language, ws, isAuthorizedSender);
      return true;
    }

    /** Deletes from the table, then always from the cache: a table error is only logged. */
    method DeleteClient(id: ClientId, tableFault: bool)
      requires Valid()
      modifies this, cache
      ensures Valid()
      ensures table == if tableFault then old(table) else old(table) - {id}
      ensures cache.clients == old(cache.clients) - {id}
      ensures cache.order == Without(old(cache.order), id)
    {
      if !tableFault {
        table := table - {id};
      }
      cache.DeleteClient(id);
    }

    /** The cache first; on a miss the table item with defaults; None when absent or on a table error. */
    method GetClient(id: ClientId, tableFault: bool) returns (r: Option<ClientInfo>)
      ensures id in cache.clients ==> r == Some(cache.clients[id])
      ensures id !in cache.clients && !tableFault && id in table ==> r == Some(FromTable(table[id]))
      ensures r.None? <==> id !in cache.clients && (tableFault || id !in table)
    {
      if id in cache.clients {
        return Some(cache.clients[id]);
      }
      if !tableFault && id in table {
        return Some(FromTable(table[id]));
      }
      return None;
    }

    /**
     * Sets `lang` in the table (creating the item when there is none), then
     * in the cache if the client is cached. True after any successful table
     * write, cached or not; False on a table error, with nothing changed.
     */
    method UpdateLanguage(id: ClientId, language: string, tableFault: bool) returns (ok: bool)
      requires Valid()
      modifies this, cache
      ensures Valid()
      ensures ok == !tableFault
      ensures ok ==> table == old(table)[id := if id in old(table) then old(table)[id].(lang := Some(language))
                                             else TableItem(Some(language), None)]
      ensures ok && id in old(cache.clients) ==>
                cache.clients == old(cache.clients)[id := old(cache.clients)[id].(lang := language)]
      ensures !ok || id !in old(cache.clients) ==> cache.clients == old(cache.clients)
      ensures !ok ==> table == old(table)
      ensures cache.order == old(cache.order)
    {
      if tableFault {
        return false;
      }
      var item := if id in table then table[id].(lang := Some(language)) else TableItem(Some(language), None);
      table := table[id := item];
      var _ := cache.UpdateLanguage(id, language);
      return true;
    }

    /** Counts the locally connected clients only (the cache). */
    method Count() returns (n: nat)
      requires Valid()
      ensures n == |cache.clients|
      ensures n == |cache.order|
    {
      n := cache.Count();
    }

    method Exists(id: ClientId) returns (b: bool)
      ensures b <==> id in cache.clients
    {
      b := cache.Exists(id);
    }

    method GetAllClients() returns (entries: seq<(ClientId, ClientInfo)>)
      requires Valid()
      ensures entries == cache.Entries()
      ensures |entries| == |cache.clients|
      ensures forall i :: 0 <= i < |entries| ==>
                entries[i].0 in cache.clients && entries[i].1 == cache.clients[entries[i].0]
      ensures forall id :: id in cache.clients ==> exists i :: 0 <= i < |entries| && entries[i].0 == id
    {
      entries := cache.GetAllClients();
    }
  }
}
