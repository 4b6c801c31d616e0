/** Key packages and the identity they must carry.

    A key package is a single-use pre-key bundle (an MLS KeyPackage, RFC 9420
    section 10) whose Basic credential (RFC 9420 section 5.3) holds an identity
    byte string. The server looks only at that identity, which must read
    `client_<user uuid>_<client uuid>` for the client the package is uploaded
    to; everything else in the package is an opaque payload here. */
module KeyPackages {
  import opened Common
  import opened Uuids

  datatype KeyPackage = KeyPackage(identity: string, payload: Bytes)

  /** The identity a package of client `client`, owned by `user`, must carry. */
  function ExpectedIdentity(user: Uuid, client: Uuid): string
  {
    "client_" + user + "_" + client
  }

  /** For one user, the identity names exactly one client: a package built for
      one client is never accepted for another client of the same user. */
  lemma {:induction false} IdentityDeterminesClient(user: Uuid, c1: Uuid, c2: Uuid)
    requires ExpectedIdentity(user, c1) == ExpectedIdentity(user, c2)
    ensures c1 == c2
  {
    var n := |user| + 8;
    assert ExpectedIdentity(user, c1)[n..] == c1;
    assert ExpectedIdentity(user, c2)[n..] == c2;
  }

  /** With well-formed UUIDs the identity names both its user and its client. */
  lemma {:induction false} IdentityInjective(u1: Uuid, c1: Uuid, u2: Uuid, c2: Uuid)
    requires WellFormedUuid(u1) && WellFormedUuid(u2)
    requires ExpectedIdentity(u1, c1) == ExpectedIdentity(u2, c2)
    ensures u1 == u2 && c1 == c2
  {
    var id := ExpectedIdentity(u1, c1);
    assert id[7..7 + UuidLength] == u1;
    assert ExpectedIdentity(u2, c2)[7..7 + UuidLength] == u2;
    IdentityDeterminesClient(u1, c1, c2);
  }

  /** True of a batch in which every package carries `expected`. */
  ghost predicate AllCarry(packages: seq<KeyPackage>, expected: string)
  {
    forall i :: 0 <= i < |packages| ==> packages[i].identity == expected
  }

  /** Checks an uploaded batch package by package; the batch is accepted only if
      every package carries the expected identity. */
  method CheckIdentities(packages: seq<KeyPackage>, expected: string) returns (ok: bool)
    ensures ok <==> AllCarry(packages, expected)
    ensures !ok ==> exists i :: 0 <= i < |packages| && packages[i].identity != expected
  {
    var i := 0;
    while i < |packages|
      invariant 0 <= i <= |packages|
      invariant forall j :: 0 <= j < i ==> packages[j].identity == expected
    {
      if packages[i].identity != expected {
        return false;
      }
      i := i + 1;
    }
    return true;
  }

  /** The number of stored packages over the clients listed in `ids`: the row
      count of the server's package table. */
  function PoolTotal(ids: seq<Uuid>, pools: map<Uuid, seq<KeyPackage>>): nat
    requires forall i :: 0 <= i < |ids| ==> ids[i] in pools
  {
    if ids == [] then 0 else |pools[ids[0]]| + PoolTotal(ids[1..], pools)
  }

  /** Every listed pool is counted: none is larger than the total, and the
      total is zero exactly when every listed pool is empty. */
  lemma {:induction false} PoolTotalBounds(ids: seq<Uuid>, pools: map<Uuid, seq<KeyPackage>>)
    requires forall i :: 0 <= i < |ids| ==> ids[i] in pools
    ensures forall i :: 0 <= i < |ids| ==> |pools[ids[i]]| <= PoolTotal(ids, pools)
    ensures PoolTotal(ids, pools) == 0 <==> forall i :: 0 <= i < |ids| ==> pools[ids[i]] == []
  {
    if ids != [] {
      PoolTotalBounds(ids[1..], pools);
      assert forall i :: 1 <= i < |ids| ==> ids[i] == ids[1..][i - 1];
    }
  }

  /** With a single client the total is that client's pool size. */
  lemma PoolTotalSingle(id: Uuid, pools: map<Uuid, seq<KeyPackage>>)
    requires id in pools
    ensures PoolTotal([id], pools) == |pools[id]|
  {
    assert [id][1..] == [];
  }

  /** Changing the pool of a client that is not listed leaves the total alone. */
  lemma {:induction false} PoolTotalOther(ids: seq<Uuid>, pools: map<Uuid, seq<KeyPackage>>, c: Uuid, s: seq<KeyPackage>)
    requires forall i :: 0 <= i < |ids| ==> ids[i] in pools
    requires c !in ids
    ensures PoolTotal(ids, pools[c := s]) == PoolTotal(ids, pools)
  {
    if ids != [] {
      PoolTotalOther(ids[1..], pools, c, s);
    }
  }

  /** Replacing the pool of a listed client moves the total by the difference
      in that pool's size. */
  lemma {:induction false} PoolTotalUpdate(ids: seq<Uuid>, pools: map<Uuid, seq<KeyPackage>>, c: Uuid, s: seq<KeyPackage>)
    requires forall i :: 0 <= i < |ids| ==> ids[i] in pools
    requires NoDuplicates(ids) && c in ids
    ensures PoolTotal(ids, pools[c := s]) == PoolTotal(ids, pools) - |pools[c]| + |s|
  {
    var rest := ids[1..];
    assert NoDuplicates(rest) by {
      forall i, j | 0 <= i < j < |rest| ensures rest[i] != rest[j] {
        assert rest[i] == ids[i + 1] && rest[j] == ids[j + 1];
      }
    }
    if ids[0] == c {
      assert c !in rest by {
        forall k | 0 <= k < |rest| ensures rest[k] != c {
          assert rest[k] == ids[k + 1];
        }
      }
      PoolTotalOther(rest, pools, c, s);
    } else {
      PoolTotalUpdate(rest, pools, c, s);
    }
  }
}
