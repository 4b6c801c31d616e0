/** The integration tests of the relay, replayed against the model: each
    method drives a fresh server through the requests one test makes and
    promises the statuses and payloads that test asserts.

    The tests' fixed key pair PUBLIC/PRIVATE becomes an identity key together
    with signatures that `verify` accepts under it; a forged all-zero signature
    is one that `verify` rejects; the random UUIDs the server and the tests
    draw are parameters. */
module Scenarios {
  import opened Common
  import opened Uuids
  import opened KeyPackages
  import opened Mailbox
  import opened Relay

  /** Length of an Ed25519 signature (RFC 8032 section 5.1.6). */
  const SignatureLength: nat := 64

  /** The first two entries of a list, where it has them, are in it. Kept
      apart from `OnlyClient` and `EmptyList` so that their reasoning about
      lists that cannot exist never indexes into one. */
  lemma Heads<T>(s: seq<T>)
    ensures |s| >= 1 ==> s[0] in s
    ensures |s| >= 2 ==> s[1] in s
  {
  }

  /** A list that holds exactly one client, once, is that client alone. */
  lemma {:induction false} OnlyClient(list: seq<Client>, c: Client)
    requires forall x :: x in list <==> x == c
    requires forall i, j :: 0 <= i < j < |list| ==> list[i].uuid != list[j].uuid
    ensures list == [c]
  {
    Heads(list);
    DistinctHeads(list);
    assert c in list;
  }

  /** Two leading entries of a list whose uuids are distinct differ in uuid;
      kept apart from `OnlyClient` for the same reason as `Heads`. */
  lemma DistinctHeads(list: seq<Client>)
    requires forall i, j :: 0 <= i < j < |list| ==> list[i].uuid != list[j].uuid
    ensures |list| >= 2 ==> list[0].uuid != list[1].uuid
  {
  }

  /** A list that holds no client is empty. */
  lemma EmptyList(list: seq<Client>)
    requires forall x :: x !in list
    ensures list == []
  {
    Heads(list);
  }

  /** One registered user with one signed client, as the tests' helpers
      leave the server before the requests under test. */
  method SetUp(verify: Verifier, identityKey: Bytes, userId: Uuid, clientId: Uuid,
               signingKey: Bytes, signature: Bytes) returns (server: Server)
    requires Canonical(userId) && Canonical(clientId)
    requires verify(identityKey, signingKey, signature)
    ensures fresh(server) && server.Valid() && server.verify == verify
    ensures server.users == map[userId := User(userId, identityKey)]
    ensures server.clients == map[clientId := Client(clientId, userId, signingKey, signature)]
    ensures server.clientOrder == [clientId]
    ensures server.pools == map[clientId := []] && server.mailboxes == map[clientId := []]
  {
    server := new Server(verify);
    server.RegisterUser(userId, identityKey);
    var st, id := server.CreateClient(userId, signingKey, signature, clientId);
  }

  /** Client create, list, get, update, delete and get-after-delete by the owner. */
  method ClientCrud(verify: Verifier, identityKey: Bytes, userId: Uuid, clientId: Uuid,
                    key1: Bytes, sig1: Bytes, key2: Bytes, sig2: Bytes)
    returns (statuses: seq<Status>, before: seq<Client>, listed: seq<Client>, created: Option<Client>,
             rotated: Option<Client>, listedAfter: seq<Client>)
    requires Canonical(userId) && Canonical(clientId)
    requires verify(identityKey, key1, sig1) && verify(identityKey, key2, sig2)
    ensures statuses == [OK, Created, OK, OK, OK, OK, OK, OK, NotFound]
    ensures before == []
    ensures listed == [Client(clientId, userId, key1, sig1)]
    ensures created == Some(Client(clientId, userId, key1, sig1))
    ensures rotated == Some(Client(clientId, userId, key2, sig2))
    ensures listedAfter == []
  {
    ParseCanonical(userId);
    ParseCanonical(clientId);
    var server := new Server(verify);
    server.RegisterUser(userId, identityKey);

    var st0;
    st0, before := server.ListClients(userId);
    EmptyList(before);

    var st1, id := server.CreateClient(userId, key1, sig1, clientId);

    var st2;
    st2, listed := server.ListClients(userId);
    OnlyClient(listed, Client(clientId, userId, key1, sig1));

    var st3;
    st3, created := server.GetClient(clientId);

    var st4 := server.UpdateClient(userId, clientId, key2, sig2);

    var st5;
    st5, rotated := server.GetClient(clientId);

    var st6 := server.DeleteClient(userId, clientId);

    var st7;
    st7, listedAfter := server.ListClients(userId);
    EmptyList(listedAfter);

    var st8, gone := server.GetClient(clientId);
    statuses := [st0, st1, st2, st3, st4, st5, st6, st7, st8];
  }

  /** An empty pool is not found; after uploading five packages one fetch
      succeeds, hands out the oldest, and leaves four stored. */
  method KeyPackageFetch(verify: Verifier, identityKey: Bytes, userId: Uuid, clientId: Uuid,
                         signingKey: Bytes, signature: Bytes, payloads: seq<Bytes>)
    returns (statuses: seq<Status>, fetched: Option<KeyPackage>, remaining: nat)
    requires Canonical(userId) && Canonical(clientId)
    requires verify(identityKey, signingKey, signature)
    requires |payloads| == 5
    ensures statuses == [NotFound, OK, OK]
    ensures fetched == Some(KeyPackage(ExpectedIdentity(userId, clientId), payloads[0]))
    ensures remaining == 4
  {
    ParseCanonical(clientId);
    var server := SetUp(verify, identityKey, userId, clientId, signingKey, signature);

    var st0, none := server.FetchKeyPackage(clientId);

    var packages := Stamp(ExpectedIdentity(userId, clientId), payloads);
    var st1 := server.ReplaceKeyPackages(userId, clientId, packages);
    PoolTotalSingle(clientId, server.pools);

    var st2;
    st2, fetched := server.FetchKeyPackage(clientId);
    remaining := server.TotalPackages();
    statuses := [st0, st1, st2];
  }

  /** After replacing a pool with N packages, N fetches hand them out in upload
      order, each exactly once, and the next fetch is not found. */
  method DrainPool(verify: Verifier, identityKey: Bytes, userId: Uuid, clientId: Uuid,
                   signingKey: Bytes, signature: Bytes, packages: seq<KeyPackage>)
    returns (replaced: Status, fetched: seq<KeyPackage>, last: Status)
    requires Canonical(userId) && Canonical(clientId)
    requires verify(identityKey, signingKey, signature)
    requires AllCarry(packages, ExpectedIdentity(userId, clientId))
    ensures replaced == OK
    ensures fetched == packages
    ensures last == NotFound
  {
    ParseCanonical(clientId);
    var server := SetUp(verify, identityKey, userId, clientId, signingKey, signature);
    replaced := server.ReplaceKeyPackages(userId, clientId, packages);
    fetched := Drain(server, clientId, packages);
    var none;
    last, none := server.FetchKeyPackage(clientId);
  }

  /** One key package per payload, each carrying `identity`, as the tests
      generate a batch before uploading it. */
  method Stamp(identity: string, payloads: seq<Bytes>) returns (packages: seq<KeyPackage>)
    ensures |packages| == |payloads|
    ensures forall j :: 0 <= j < |payloads| ==> packages[j] == KeyPackage(identity, payloads[j])
    ensures AllCarry(packages, identity)
  {
    packages := [];
    for i := 0 to |payloads|
      invariant |packages| == i
      invariant forall j :: 0 <= j < i ==> packages[j] == KeyPackage(identity, payloads[j])
    {
      packages := packages + [KeyPackage(identity, payloads[i])];
    }
  }

  /** Fetches from one client's pool until it is empty; the packages come out
      in pool order, each once, and nothing but that pool changes. */
  method Drain(server: Server, clientId: Uuid, packages: seq<KeyPackage>) returns (fetched: seq<KeyPackage>)
    requires server.Valid() && Canonical(clientId) && clientId in server.clients
    requires server.pools[clientId] == packages
    modifies server
    ensures server.Valid() && fetched == packages
    ensures server.pools == old(server.pools)[clientId := []]
    ensures server.users == old(server.users) && server.clients == old(server.clients)
    ensures server.clientOrder == old(server.clientOrder) && server.mailboxes == old(server.mailboxes)
    decreases |packages|
  {
    if packages == [] {
      return [];
    }
    var p := FetchNext(server, clientId, packages);
    var more := Drain(server, clientId, packages[1..]);
    OverwriteTwice(old(server.pools), clientId, packages[1..], []);
    HeadThenTail(packages);
    fetched := [p] + more;
  }

  /** Writing a key twice keeps the second value. */
  lemma OverwriteTwice<K, V>(m: map<K, V>, k: K, a: V, b: V)
    ensures m[k := a][k := b] == m[k := b]
  {
  }

  /** A non-empty sequence is its head followed by its tail. */
  lemma HeadThenTail<T>(s: seq<T>)
    requires s != []
    ensures [s[0]] + s[1..] == s
  {
  }

  /** One successful fetch from a non-empty pool: the head package comes out
      and only that pool changes. */
  method FetchNext(server: Server, clientId: Uuid, pool: seq<KeyPackage>) returns (p: KeyPackage)
    requires server.Valid() && Canonical(clientId)
    requires clientId in server.clients && server.pools[clientId] == pool && pool != []
    modifies server
    ensures server.Valid() && p == pool[0]
    ensures server.pools == old(server.pools)[clientId := pool[1..]]
    ensures server.users == old(server.users) && server.clients == old(server.clients)
    ensures server.clientOrder == old(server.clientOrder) && server.mailboxes == old(server.mailboxes)
  {
    ParseCanonical(clientId);
    var st, package := server.FetchKeyPackage(clientId);
    p := package.value;
  }

  /** Creating a client with an all-zero signature is a bad request and stores nothing. */
  method CreateClientBadSignature(verify: Verifier, identityKey: Bytes, userId: Uuid,
                                  signingKey: Bytes, clientId: Uuid)
    returns (st: Status, listed: seq<Client>)
    requires Canonical(userId) && Canonical(clientId)
    requires !verify(identityKey, signingKey, Zeros(SignatureLength))
    ensures st == BadRequest
    ensures listed == []
  {
    ParseCanonical(userId);
    var server := new Server(verify);
    server.RegisterUser(userId, identityKey);
    var id;
    st, id := server.CreateClient(userId, signingKey, Zeros(SignatureLength), clientId);
    var st1;
    st1, listed := server.ListClients(userId);
    EmptyList(listed);
  }

  /** A second user, with the same identity key, may not update the first
      user's client even with a signature that verifies under that key. */
  method UpdateClientBadAuth(verify: Verifier, identityKey: Bytes, userId: Uuid, otherId: Uuid,
                             clientId: Uuid, key1: Bytes, sig1: Bytes, key2: Bytes, sig2: Bytes)
    returns (st: Status, kept: Option<Client>)
    requires Canonical(userId) && Canonical(otherId) && Canonical(clientId) && userId != otherId
    requires verify(identityKey, key1, sig1) && verify(identityKey, key2, sig2)
    ensures st == Forbidden
    ensures kept == Some(Client(clientId, userId, key1, sig1))
  {
    ParseCanonical(clientId);
    var server := SetUp(verify, identityKey, userId, clientId, key1, sig1);
    server.RegisterUser(otherId, identityKey);
    st := server.UpdateClient(otherId, clientId, key2, sig2);
    var st1;
    st1, kept := server.GetClient(clientId);
  }

  /** The owner's key rotation with an all-zero signature is a bad request and
      leaves the client as it was. */
  method UpdateClientBadSignature(verify: Verifier, identityKey: Bytes, userId: Uuid, clientId: Uuid,
                                  key1: Bytes, sig1: Bytes, key2: Bytes)
    returns (st: Status, kept: Option<Client>)
    requires Canonical(userId) && Canonical(clientId)
    requires verify(identityKey, key1, sig1)
    requires !verify(identityKey, key2, Zeros(SignatureLength))
    ensures st == BadRequest
    ensures kept == Some(Client(clientId, userId, key1, sig1))
  {
    ParseCanonical(clientId);
    var server := SetUp(verify, identityKey, userId, clientId, key1, sig1);
    st := server.UpdateClient(userId, clientId, key2, Zeros(SignatureLength));
    var st1;
    st1, kept := server.GetClient(clientId);
  }

  /** A second user may not delete the first user's client. */
  method DeleteClientBadAuth(verify: Verifier, identityKey: Bytes, userId: Uuid, otherId: Uuid,
                             clientId: Uuid, signingKey: Bytes, signature: Bytes)
    returns (st: Status, kept: Option<Client>)
    requires Canonical(userId) && Canonical(otherId) && Canonical(clientId) && userId != otherId
    requires verify(identityKey, signingKey, signature)
    ensures st == Forbidden
    ensures kept == Some(Client(clientId, userId, signingKey, signature))
  {
    ParseCanonical(clientId);
    var server := SetUp(verify, identityKey, userId, clientId, signingKey, signature);
    server.RegisterUser(otherId, identityKey);
    st := server.DeleteClient(otherId, clientId);
    var st1;
    st1, kept := server.GetClient(clientId);
  }

  /** A second user may not upload key packages for the first user's client,
      even packages that carry that client's identity. */
  method ReplaceKeyPackagesBadAuth(verify: Verifier, identityKey: Bytes, userId: Uuid, otherId: Uuid,
                                   clientId: Uuid, signingKey: Bytes, signature: Bytes, payload: Bytes)
    returns (st: Status, stored: nat)
    requires Canonical(userId) && Canonical(otherId) && Canonical(clientId) && userId != otherId
    requires verify(identityKey, signingKey, signature)
    ensures st == Forbidden
    ensures stored == 0
  {
    ParseCanonical(clientId);
    var server := SetUp(verify, identityKey, userId, clientId, signingKey, signature);
    server.RegisterUser(otherId, identityKey);
    st := server.ReplaceKeyPackages(otherId, clientId, [KeyPackage(ExpectedIdentity(userId, clientId), payload)]);
    PoolTotalSingle(clientId, server.pools);
    stored := server.TotalPackages();
  }

  /** A package whose identity names another client of the same user is
      refused, and the pool is left as it was. */
  method ReplaceKeyPackagesWrongIdentity(verify: Verifier, identityKey: Bytes, userId: Uuid,
                                         clientId: Uuid, otherClient: Uuid,
                                         signingKey: Bytes, signature: Bytes, payload: Bytes)
    returns (st: Status, stored: nat)
    requires Canonical(userId) && Canonical(clientId) && otherClient != clientId
    requires verify(identityKey, signingKey, signature)
    ensures st == BadRequest
    ensures stored == 0
  {
    ParseCanonical(clientId);
    var server := SetUp(verify, identityKey, userId, clientId, signingKey, signature);
    var package := KeyPackage(ExpectedIdentity(userId, otherClient), payload);
    assert !AllCarry([package], ExpectedIdentity(userId, clientId)) by {
      if package.identity == ExpectedIdentity(userId, clientId) {
        IdentityDeterminesClient(userId, otherClient, clientId);
      }
      assert [package][0] == package;
    }
    st := server.ReplaceKeyPackages(userId, clientId, [package]);
    PoolTotalSingle(clientId, server.pools);
    stored := server.TotalPackages();
  }

  /** A new mailbox reads empty; after one send to it, it reads that one payload. */
  method SingleMessage(verify: Verifier, identityKey: Bytes, userId: Uuid, clientId: Uuid,
                       signingKey: Bytes, signature: Bytes, message: Bytes)
    returns (statuses: seq<Status>, before: seq<Bytes>, after: seq<Bytes>)
    requires Canonical(userId) && Canonical(clientId)
    requires verify(identityKey, signingKey, signature)
    ensures statuses == [OK, OK, OK]
    ensures before == [] && after == [message]
  {
    ParseCanonical(clientId);
    var server := SetUp(verify, identityKey, userId, clientId, signingKey, signature);
    var st0;
    st0, before := server.Receive(userId, clientId);
    var st1 := server.Send(userId, [clientId], message);
    SendOne(map[clientId := []], clientId, message);
    var st2;
    st2, after := server.Receive(userId, clientId);
    statuses := [st0, st1, st2];
  }

  /** Three sends to one client are read back as exactly those three payloads,
      in send order. */
  method MultipleMessages(verify: Verifier, identityKey: Bytes, userId: Uuid, clientId: Uuid,
                          signingKey: Bytes, signature: Bytes, m1: Bytes, m2: Bytes, m3: Bytes)
    returns (statuses: seq<Status>, messages: seq<Bytes>)
    requires Canonical(userId) && Canonical(clientId)
    requires verify(identityKey, signingKey, signature)
    ensures statuses == [OK, OK, OK, OK]
    ensures messages == [m1, m2, m3]
  {
    ParseCanonical(clientId);
    var server := SetUp(verify, identityKey, userId, clientId, signingKey, signature);
    ghost var boxes := server.mailboxes;
    var st0 := server.Send(userId, [clientId], m1);
    var st1 := server.Send(userId, [clientId], m2);
    var st2 := server.Send(userId, [clientId], m3);
    SendsInOrder(boxes, clientId, m1, m2, m3);
    var st3;
    st3, messages := server.Receive(userId, clientId);
    statuses := [st0, st1, st2, st3];
  }

  /** Unknown and malformed UUIDs: receiving from an unknown client is not
      found and from a malformed UUID a bad request; a send naming an unknown
      client, alone or beside a real one, is not found; a send naming a
      malformed UUID, or nobody, is a bad request; none of them delivers. */
  method InvalidUuid(verify: Verifier, identityKey: Bytes, userId: Uuid, clientId: Uuid,
                     signingKey: Bytes, signature: Bytes, unknown: Uuid, message: Bytes)
    returns (statuses: seq<Status>, delivered: seq<Bytes>)
    requires Canonical(userId) && Canonical(clientId) && Canonical(unknown) && unknown != clientId
    requires verify(identityKey, signingKey, signature)
    ensures statuses == [NotFound, BadRequest, NotFound, NotFound, BadRequest, BadRequest]
    ensures delivered == []
  {
    ParseCanonical(clientId);
    ParseCanonical(unknown);
    var server := SetUp(verify, identityKey, userId, clientId, signingKey, signature);
    var none;
    var st0;
    st0, none := server.Receive(userId, unknown);
    var st1;
    st1, none := server.Receive(userId, "bad uuid");
    var st2 := server.Send(userId, [unknown], message);
    ParseAllCanonical([unknown]);
    var st3 := server.Send(userId, [clientId, unknown], message);
    ParseAllCanonical([clientId, unknown]);
    var st4 := server.Send(userId, ["bad uuid"], message);
    var st5 := server.Send(userId, [], message);
    var st6;
    st6, delivered := server.Receive(userId, clientId);
    statuses := [st0, st1, st2, st3, st4, st5];
  }

  /** A user may not read the mailbox of another user's client. */
  method BadUser(verify: Verifier, identityKey: Bytes, userId: Uuid, clientId: Uuid,
                 signingKey: Bytes, signature: Bytes,
                 otherKey: Bytes, otherId: Uuid, otherClient: Uuid, otherSigningKey: Bytes, otherSignature: Bytes)
    returns (st: Status, messages: seq<Bytes>)
    requires Canonical(userId) && Canonical(clientId) && Canonical(otherId) && Canonical(otherClient)
    requires userId != otherId && clientId != otherClient
    requires verify(identityKey, signingKey, signature) && verify(otherKey, otherSigningKey, otherSignature)
    ensures st == Forbidden && messages == []
  {
    ParseCanonical(clientId);
    var server := SetUp(verify, identityKey, userId, clientId, signingKey, signature);
    server.RegisterUser(otherId, otherKey);
    var created, id := server.CreateClient(otherId, otherSigningKey, otherSignature, otherClient);
    st, messages := server.Receive(otherId, clientId);
  }
}
