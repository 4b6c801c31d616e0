/** The relay server's state machine: the directory of users and their client
    devices, each client's key-package pool, and each client's mailbox.

    Every request reaches this class already authenticated: `caller` is the
    user a bearer token resolved to. A client named in a request arrives as
    text and is parsed first, so a malformed UUID is a bad request; a
    well-formed UUID that names no client is not found; a client that belongs
    to someone else is forbidden to everyone but its owner for the operations
    that check ownership. */
module Relay {
  import opened Common
  import opened Uuids
  import opened KeyPackages
  import opened Mailbox

  /** A registered user; its identity key is the root of trust for its clients. */
  datatype User = User(uuid: Uuid, identityKey: Bytes)

  /** A device of a user: its signing key and the user's signature over it. */
  datatype Client = Client(uuid: Uuid, userUuid: Uuid, signingKey: Bytes, signature: Bytes)

  /** Signature verification, given (public key, signed bytes, signature). */
  type Verifier = (Bytes, Bytes, Bytes) -> bool

  /** The server's tables as values: what the class's fields hold at one moment. */
  datatype Tables = Tables(
    users: map<Uuid, User>,
    clients: map<Uuid, Client>,
    clientOrder: seq<Uuid>,
    pools: map<Uuid, seq<KeyPackage>>,
    mailboxes: Mailboxes)

  /** The client's signature over its signing key verifies under its owner's identity key. */
  ghost predicate SignedByOwner(verify: Verifier, users: map<Uuid, User>, c: Client)
    requires c.userUuid in users
  {
    verify(users[c.userUuid].identityKey, c.signingKey, c.signature)
  }

  /** What every reachable state of the server satisfies: every record is filed
      under its own UUID, every client belongs to a registered user and is
      signed by that user's identity key, every client has exactly one pool
      and one mailbox, every stored key package carries its client's identity,
      and the creation order lists each client once. */
  ghost predicate Consistent(verify: Verifier, t: Tables)
  {
    && (forall u :: u in t.users ==> t.users[u].uuid == u)
    && (forall c :: c in t.clients ==> t.clients[c].uuid == c && t.clients[c].userUuid in t.users)
    && (forall c :: c in t.clients ==> SignedByOwner(verify, t.users, t.clients[c]))
    && t.pools.Keys == t.clients.Keys
    && t.mailboxes.Keys == t.clients.Keys
    && (forall c :: c in t.pools ==> AllCarry(t.pools[c], ExpectedIdentity(t.clients[c].userUuid, c)))
    && NoDuplicates(t.clientOrder)
    && (forall c :: c in t.clientOrder <==> c in t.clients)
  }

  lemma RegisterKeeps(verify: Verifier, t: Tables, u: Uuid, key: Bytes)
    requires Consistent(verify, t) && u !in t.users
    ensures Consistent(verify, t.(users := t.users[u := User(u, key)]))
  {
    var t' := t.(users := t.users[u := User(u, key)]);
    forall c | c in t'.clients ensures SignedByOwner(verify, t'.users, t'.clients[c]) {
      assert SignedByOwner(verify, t.users, t.clients[c]);
    }
  }

  lemma CreateKeeps(verify: Verifier, t: Tables, c: Client)
    requires Consistent(verify, t) && c.uuid !in t.clients
    requires c.userUuid in t.users && SignedByOwner(verify, t.users, c)
    ensures Consistent(verify, t.(clients := t.clients[c.uuid := c],
                                  clientOrder := t.clientOrder + [c.uuid],
                                  pools := t.pools[c.uuid := []],
                                  mailboxes := t.mailboxes[c.uuid := []]))
  {
    assert c.uuid !in t.clientOrder;
  }

  lemma UpdateKeeps(verify: Verifier, t: Tables, c: Client)
    requires Consistent(verify, t) && c.uuid in t.clients
    requires c.userUuid == t.clients[c.uuid].userUuid && SignedByOwner(verify, t.users, c)
    ensures Consistent(verify, t.(clients := t.clients[c.uuid := c]))
  {
  }

  lemma DeleteKeeps(verify: Verifier, t: Tables, id: Uuid)
    requires Consistent(verify, t) && id in t.clients
    ensures Consistent(verify, t.(clients := t.clients - {id},
                                  clientOrder := Without(t.clientOrder, id),
                                  pools := t.pools - {id},
                                  mailboxes := t.mailboxes - {id}))
  {
    var t' := t.(clients := t.clients - {id}, clientOrder := Without(t.clientOrder, id),
                 pools := t.pools - {id}, mailboxes := t.mailboxes - {id});
    assert forall c :: c in t'.clients ==> t'.clients[c] == t.clients[c];
    assert forall c :: c in t'.pools ==> t'.pools[c] == t.pools[c];
    assert t'.pools.Keys == t.pools.Keys - {id};
    assert t'.mailboxes.Keys == t.mailboxes.Keys - {id};
  }

  lemma RestockKeeps(verify: Verifier, t: Tables, id: Uuid, packages: seq<KeyPackage>)
    requires Consistent(verify, t) && id in t.clients
    requires AllCarry(packages, ExpectedIdentity(t.clients[id].userUuid, id))
    ensures Consistent(verify, t.(pools := t.pools[id := packages]))
  {
  }

  lemma DeliverKeeps(verify: Verifier, t: Tables, boxes: Mailboxes)
    requires Consistent(verify, t) && boxes.Keys == t.mailboxes.Keys
    ensures Consistent(verify, t.(mailboxes := boxes))
  {
  }

  /** Walks the creation order and keeps the clients owned by `u`: exactly
      the stored clients of that user, each once. */
  method OwnedBy(clients: map<Uuid, Client>, order: seq<Uuid>, u: Uuid) returns (list: seq<Client>)
    requires forall c :: c in clients ==> clients[c].uuid == c
    requires NoDuplicates(order) && forall c :: c in order <==> c in clients
    ensures forall c :: c in list <==> c.uuid in clients && clients[c.uuid] == c && c.userUuid == u
    ensures forall i, j :: 0 <= i < j < |list| ==> list[i].uuid != list[j].uuid
  {
    list := [];
    var k := 0;
    while k < |order|
      invariant 0 <= k <= |order|
      invariant forall c :: c in list ==>
        c.uuid in clients && clients[c.uuid] == c && c.userUuid == u && c.uuid in order[..k]
      invariant forall j :: 0 <= j < k && clients[order[j]].userUuid == u ==> clients[order[j]] in list
      invariant forall i, j :: 0 <= i < j < |list| ==> list[i].uuid != list[j].uuid
    {
      var c := clients[order[k]];
      if c.userUuid == u {
        assert c.uuid !in order[..k];
        list := list + [c];
      }
      assert order[..k + 1] == order[..k] + [order[k]];
      k := k + 1;
    }
    forall c: Client | c.uuid in clients && clients[c.uuid] == c && c.userUuid == u
      ensures c in list
    {
      var j :| 0 <= j < |order| && order[j] == c.uuid;
    }
  }

  class Server {
    const verify: Verifier
    var users: map<Uuid, User>
    var clients: map<Uuid, Client>
    /** Every client's UUID once, in creation order. */
    var clientOrder: seq<Uuid>
    var pools: map<Uuid, seq<KeyPackage>>
    var mailboxes: Mailboxes

    ghost function Snapshot(): Tables
      reads this
    {
      Tables(users, clients, clientOrder, pools, mailboxes)
    }

    ghost predicate Valid()
      reads this
    {
      Consistent(verify, Snapshot())
    }

    /** The number of key packages stored for all clients together. */
    function TotalPackages(): nat
      reads this
      requires Valid()
    {
      PoolTotal(clientOrder, pools)
    }

    constructor (verify: Verifier)
      ensures Valid() && this.verify == verify
      ensures users == map[] && clients == map[] && clientOrder == []
      ensures pools == map[] && mailboxes == map[]
    {
      this.verify := verify;
      users, clients, clientOrder := map[], map[], [];
      pools, mailboxes := map[], map[];
    }

    /** Enters a user as the registration flow leaves it: a new UUID and an identity key. */
    method RegisterUser(uuid: Uuid, identityKey: Bytes)
      requires Valid() && Canonical(uuid) && uuid !in users
      modifies this
      ensures Valid()
      ensures users == old(users)[uuid := User(uuid, identityKey)]
      ensures clients == old(clients) && clientOrder == old(clientOrder)
      ensures pools == old(pools) && mailboxes == old(mailboxes)
    {
      ghost var t := Snapshot();
      RegisterKeeps(verify, t, uuid, identityKey);
      users := users[uuid := User(uuid, identityKey)];
      assert Snapshot() == t.(users := t.users[uuid := User(uuid, identityKey)]);
    }

    /** Registers a device of `caller`. The signature over the signing key must
        verify under the caller's identity key; `newId` is the UUID the server
        draws for the new client. A new client starts with an empty key-package
        pool and an empty mailbox. */
    method CreateClient(caller: Uuid, signingKey: Bytes, signature: Bytes, newId: Uuid)
      returns (st: Status, id: Option<Uuid>)
      requires Valid() && caller in users
      requires Canonical(newId) && newId !in clients
      modifies this
      ensures Valid() && users == old(users)
      ensures st == Created <==> verify(users[caller].identityKey, signingKey, signature)
      ensures st != Created ==> st == BadRequest && id == None
      ensures st != Created ==> clients == old(clients) && clientOrder == old(clientOrder)
      ensures st != Created ==> pools == old(pools) && mailboxes == old(mailboxes)
      ensures st == Created ==> id == Some(newId)
      ensures st == Created ==> clients == old(clients)[newId := Client(newId, caller, signingKey, signature)]
      ensures st == Created ==> clientOrder == old(clientOrder) + [newId]
      ensures st == Created ==> pools == old(pools)[newId := []] && mailboxes == old(mailboxes)[newId := []]
    {
      if !verify(users[caller].identityKey, signingKey, signature) {
        return BadRequest, None;
      }
      var c := Client(newId, caller, signingKey, signature);
      ghost var t := Snapshot();
      CreateKeeps(verify, t, c);
      clients, clientOrder := clients[newId := c], clientOrder + [newId];
      pools, mailboxes := pools[newId := []], mailboxes[newId := []];
      assert Snapshot() == t.(clients := t.clients[newId := c], clientOrder := t.clientOrder + [newId],
                              pools := t.pools[newId := []], mailboxes := t.mailboxes[newId := []]);
      st, id := Created, Some(newId);
    }

    /** Reads one client by UUID. */
    method GetClient(text: string) returns (st: Status, client: Option<Client>)
      ensures !WellFormedUuid(text) ==> st == BadRequest && client == None
      ensures WellFormedUuid(text) ==>
        var id := ParseUuid(text).value;
        && (id in clients ==> st == OK && client == Some(clients[id]))
        && (id !in clients ==> st == NotFound && client == None)
    {
      var p := ParseUuid(text);
      if p.None? {
        return BadRequest, None;
      }
      if p.value !in clients {
        return NotFound, None;
      }
      st, client := OK, Some(clients[p.value]);
    }

    /** Lists the clients of one user, in creation order: exactly the stored
        clients owned by that user, each once. */
    method ListClients(userText: string) returns (st: Status, list: seq<Client>)
      requires Valid()
      ensures !WellFormedUuid(userText) ==> st == BadRequest && list == []
      ensures WellFormedUuid(userText) && ParseUuid(userText).value !in users ==> st == NotFound && list == []
      ensures WellFormedUuid(userText) && ParseUuid(userText).value in users ==> st == OK
      ensures st == OK ==> forall c :: c in list <==>
        c.uuid in clients && clients[c.uuid] == c && c.userUuid == ParseUuid(userText).value
      ensures forall i, j :: 0 <= i < j < |list| ==> list[i].uuid != list[j].uuid
    {
      list := [];
      var p := ParseUuid(userText);
      if p.None? {
        return BadRequest, [];
      }
      var u := p.value;
      if u !in users {
        return NotFound, [];
      }
      list := OwnedBy(clients, clientOrder, u);
      st := OK;
    }

    /** Rotates a client's signing key. Only the owner may do so, and the new
        signature must verify under the owner's identity key; the client keeps
        its UUID and owner, its pool and its mailbox. */
    method UpdateClient(caller: Uuid, text: string, signingKey: Bytes, signature: Bytes) returns (st: Status)
      requires Valid() && caller in users
      modifies this
      ensures Valid()
      ensures users == old(users) && clientOrder == old(clientOrder)
      ensures pools == old(pools) && mailboxes == old(mailboxes)
      ensures !WellFormedUuid(text) ==> st == BadRequest
      ensures WellFormedUuid(text) ==>
        var id := ParseUuid(text).value;
        && (id !in old(clients) ==> st == NotFound)
        && (id in old(clients) && old(clients)[id].userUuid != caller ==> st == Forbidden)
        && (id in old(clients) && old(clients)[id].userUuid == caller ==>
              st == if verify(users[caller].identityKey, signingKey, signature) then OK else BadRequest)
      ensures st == OK ==>
        var id := ParseUuid(text).value;
        clients == old(clients)[id := Client(id, caller, signingKey, signature)]
      ensures st != OK ==> clients == old(clients)
    {
      var p := ParseUuid(text);
      if p.None? {
        return BadRequest;
      }
      var id := p.value;
      if id !in clients {
        return NotFound;
      }
      if clients[id].userUuid != caller {
        return Forbidden;
      }
      if !verify(users[caller].identityKey, signingKey, signature) {
        return BadRequest;
      }
      var c := Client(id, caller, signingKey, signature);
      ghost var t := Snapshot();
      UpdateKeeps(verify, t, c);
      clients := clients[id := c];
      assert Snapshot() == t.(clients := t.clients[id := c]);
      st := OK;
    }

    /** Deletes a client on its owner's request, together with its key
        packages and its mailbox. */
    method DeleteClient(caller: Uuid, text: string) returns (st: Status)
      requires Valid() && caller in users
      modifies this
      ensures Valid() && users == old(users)
      ensures !WellFormedUuid(text) ==> st == BadRequest
      ensures WellFormedUuid(text) ==>
        var id := ParseUuid(text).value;
        && (id !in old(clients) ==> st == NotFound)
        && (id in old(clients) && old(clients)[id].userUuid != caller ==> st == Forbidden)
        && (id in old(clients) && old(clients)[id].userUuid == caller ==> st == OK)
      ensures st == OK ==>
        var id := ParseUuid(text).value;
        && clients == old(clients) - {id}
        && clientOrder == Without(old(clientOrder), id)
        && pools == old(pools) - {id}
        && mailboxes == old(mailboxes) - {id}
      ensures st != OK ==> clients == old(clients) && clientOrder == old(clientOrder)
      ensures st != OK ==> pools == old(pools) && mailboxes == old(mailboxes)
    {
      var p := ParseUuid(text);
      if p.None? {
        return BadRequest;
      }
      var id := p.value;
      if id !in clients {
        return NotFound;
      }
      if clients[id].userUuid != caller {
        return Forbidden;
      }
      Remove(id);
      st := OK;
    }

    /** Drops a stored client from every table: the cascade of a deletion. */
    method Remove(id: Uuid)
      requires Valid() && id in clients
      modifies this
      ensures Valid() && users == old(users)
      ensures clients == old(clients) - {id} && clientOrder == Without(old(clientOrder), id)
      ensures pools == old(pools) - {id} && mailboxes == old(mailboxes) - {id}
    {
      ghost var t := Snapshot();
      DeleteKeeps(verify, t, id);
      clients, clientOrder := clients - {id}, Without(clientOrder, id);
      pools, mailboxes := pools - {id}, mailboxes - {id};
      assert Snapshot() == t.(clients := t.clients - {id}, clientOrder := Without(t.clientOrder, id),
                              pools := t.pools - {id}, mailboxes := t.mailboxes - {id});
    }

    /** Replaces a client's whole key-package pool on its owner's request. Every
        uploaded package must carry the identity of this client and its owner;
        one package that does not rejects the whole batch. */
    method ReplaceKeyPackages(caller: Uuid, text: string, packages: seq<KeyPackage>) returns (st: Status)
      requires Valid() && caller in users
      modifies this
      ensures Valid()
      ensures users == old(users) && clients == old(clients) && clientOrder == old(clientOrder)
      ensures mailboxes == old(mailboxes)
      ensures !WellFormedUuid(text) ==> st == BadRequest
      ensures WellFormedUuid(text) ==>
        var id := ParseUuid(text).value;
        && (id !in clients ==> st == NotFound)
        && (id in clients && clients[id].userUuid != caller ==> st == Forbidden)
        && (id in clients && clients[id].userUuid == caller ==>
              st == if AllCarry(packages, ExpectedIdentity(caller, id)) then OK else BadRequest)
      ensures st == OK ==>
        var id := ParseUuid(text).value;
        && pools == old(pools)[id := packages]
        && TotalPackages() == old(TotalPackages()) - |old(pools)[id]| + |packages|
      ensures st != OK ==> pools == old(pools)
    {
      var p := ParseUuid(text);
      if p.None? {
        return BadRequest;
      }
      var id := p.value;
      if id !in clients {
        return NotFound;
      }
      if clients[id].userUuid != caller {
        return Forbidden;
      }
      var ok := CheckIdentities(packages, ExpectedIdentity(caller, id));
      if !ok {
        return BadRequest;
      }
      PoolTotalUpdate(clientOrder, pools, id, packages);
      ghost var t := Snapshot();
      RestockKeeps(verify, t, id, packages);
      pools := pools[id := packages];
      assert Snapshot() == t.(pools := t.pools[id := packages]);
      st := OK;
    }

    /** Hands out one key package of a client, oldest first, and removes it in
        the same step, so no package is handed out twice. */
    method FetchKeyPackage(text: string) returns (st: Status, package: Option<KeyPackage>)
      requires Valid()
      modifies this
      ensures Valid()
      ensures users == old(users) && clients == old(clients) && clientOrder == old(clientOrder)
      ensures mailboxes == old(mailboxes)
      ensures !WellFormedUuid(text) ==> st == BadRequest
      ensures WellFormedUuid(text) ==>
        var id := ParseUuid(text).value;
        && (id !in clients ==> st == NotFound)
        && (id in clients && old(pools)[id] == [] ==> st == NotFound)
        && (id in clients && old(pools)[id] != [] ==> st == OK)
      ensures st == OK ==>
        var id := ParseUuid(text).value;
        && package == Some(old(pools)[id][0])
        && pools == old(pools)[id := old(pools)[id][1..]]
        && TotalPackages() == old(TotalPackages()) - 1
      ensures st != OK ==> package == None && pools == old(pools)
    {
      var p := ParseUuid(text);
      if p.None? {
        return BadRequest, None;
      }
      var id := p.value;
      if id !in clients || pools[id] == [] {
        return NotFound, None;
      }
      package := Some(pools[id][0]);
      var rest := pools[id][1..];
      PoolTotalUpdate(clientOrder, pools, id, rest);
      ghost var t := Snapshot();
      RestockKeeps(verify, t, id, rest);
      pools := pools[id := rest];
      assert Snapshot() == t.(pools := t.pools[id := rest]);
      st := OK;
    }

    /** Delivers one payload to every listed client. The list is resolved in
        full before anything is delivered, so a request that fails delivers
        to none of its recipients. */
    method Send(caller: Uuid, texts: seq<string>, payload: Bytes) returns (st: Status)
      requires Valid() && caller in users
      modifies this
      ensures Valid()
      ensures users == old(users) && clients == old(clients) && clientOrder == old(clientOrder)
      ensures pools == old(pools)
      ensures st == OK || st == BadRequest || st == NotFound
      ensures st == BadRequest <==> texts == [] || ParseAll(texts).None?
      ensures st == NotFound <==>
        texts != [] && ParseAll(texts).Some? && exists u :: u in ParseAll(texts).value && u !in clients
      ensures st == OK ==> ParseAll(texts).Some? && forall u :: u in ParseAll(texts).value ==> u in old(mailboxes)
      ensures st == OK ==> mailboxes == FanOut(old(mailboxes), ParseAll(texts).value, payload)
      ensures st != OK ==> mailboxes == old(mailboxes)
    {
      var ids;
      st, ids := ResolveRecipients(texts, clients.Keys);
      if st != OK {
        return;
      }
      var boxes := Deliver(mailboxes, ids, payload);
      ghost var t := Snapshot();
      DeliverKeeps(verify, t, boxes);
      mailboxes := boxes;
      assert Snapshot() == t.(mailboxes := boxes);
    }

    /** Reads a client's mailbox on its owner's request: every payload
        delivered to it, oldest first. Reading does not remove anything. */
    method Receive(caller: Uuid, text: string) returns (st: Status, messages: seq<Bytes>)
      requires Valid()
      ensures !WellFormedUuid(text) ==> st == BadRequest && messages == []
      ensures WellFormedUuid(text) ==>
        var id := ParseUuid(text).value;
        && (id !in clients ==> st == NotFound && messages == [])
        && (id in clients && clients[id].userUuid != caller ==> st == Forbidden && messages == [])
        && (id in clients && clients[id].userUuid == caller ==> st == OK && messages == mailboxes[id])
    {
      var p := ParseUuid(text);
      if p.None? {
        return BadRequest, [];
      }
      var id := p.value;
      if id !in clients {
        return NotFound, [];
      }
      if clients[id].userUuid != caller {
        return Forbidden, [];
      }
      st, messages := OK, mailboxes[id];
    }
  }

  /** The package table counts every pool: no pool is larger than the total,
      and the total is zero exactly when every client's pool is empty. */
  lemma TotalCountsEveryPool(server: Server)
    requires server.Valid()
    ensures forall c :: c in server.pools ==> |server.pools[c]| <= server.TotalPackages()
    ensures server.TotalPackages() == 0 <==> forall c :: c in server.pools ==> server.pools[c] == []
  {
    var order, pools := server.clientOrder, server.pools;
    PoolTotalBounds(order, pools);
    assert forall c :: c in pools ==> exists i :: 0 <= i < |order| && order[i] == c;
  }
}
