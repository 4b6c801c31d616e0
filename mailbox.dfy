/** The store-and-forward mailboxes: one ordered log of opaque payloads per
    client, filled by fan-out sends. */
module Mailbox {
  import opened Common
  import opened Uuids

  type Mailboxes = map<Uuid, seq<Bytes>>

  /** How many entries of `rs` name `c`. */
  function Count(rs: seq<Uuid>, c: Uuid): nat
  {
    if rs == [] then 0
    else Count(rs[..|rs| - 1], c) + (if rs[|rs| - 1] == c then 1 else 0)
  }

  /** `n` copies of one payload. */
  function Copies(payload: Bytes, n: nat): seq<Bytes>
  {
    if n == 0 then [] else Copies(payload, n - 1) + [payload]
  }

  /** The mailboxes after delivering `payload` to every entry of `rs`, in list
      order; an entry that appears twice is delivered twice. */
  function FanOut(boxes: Mailboxes, rs: seq<Uuid>, payload: Bytes): (r: Mailboxes)
    requires forall i :: 0 <= i < |rs| ==> rs[i] in boxes
    ensures r.Keys == boxes.Keys
    decreases |rs|
  {
    if rs == [] then boxes
    else
      var before := FanOut(boxes, rs[..|rs| - 1], payload);
      var last := rs[|rs| - 1];
      before[last := before[last] + [payload]]
  }

  /** What a fan-out leaves in each mailbox: the old entries, untouched and in
      order, followed by one copy of the payload per time the list names it. */
  lemma {:induction false} FanOutContents(boxes: Mailboxes, rs: seq<Uuid>, payload: Bytes, c: Uuid)
    requires forall i :: 0 <= i < |rs| ==> rs[i] in boxes
    requires c in boxes
    ensures FanOut(boxes, rs, payload)[c] == boxes[c] + Copies(payload, Count(rs, c))
    decreases |rs|
  {
    if rs != [] {
      var init := rs[..|rs| - 1];
      FanOutContents(boxes, init, payload, c);
      if rs[|rs| - 1] == c {
        calc {
          FanOut(boxes, rs, payload)[c];
          FanOut(boxes, init, payload)[c] + [payload];
          boxes[c] + Copies(payload, Count(init, c)) + [payload];
          boxes[c] + (Copies(payload, Count(init, c)) + [payload]);
          boxes[c] + Copies(payload, Count(rs, c));
        }
      }
    }
  }

  /** A client the list does not name receives nothing. */
  lemma FanOutSkips(boxes: Mailboxes, rs: seq<Uuid>, payload: Bytes, c: Uuid)
    requires forall i :: 0 <= i < |rs| ==> rs[i] in boxes
    requires c in boxes && c !in rs
    ensures FanOut(boxes, rs, payload)[c] == boxes[c]
  {
    FanOutContents(boxes, rs, payload, c);
    assert Count(rs, c) == 0 by { CountAbsent(rs, c); }
  }

  lemma {:induction false} CountAbsent(rs: seq<Uuid>, c: Uuid)
    requires c !in rs
    ensures Count(rs, c) == 0
    decreases |rs|
  {
    if rs != [] {
      assert forall y :: y in rs[..|rs| - 1] ==> y in rs;
      CountAbsent(rs[..|rs| - 1], c);
    }
  }

  /** A send to a single client appends exactly its payload to that mailbox. */
  lemma SendOne(boxes: Mailboxes, c: Uuid, payload: Bytes)
    requires c in boxes
    ensures FanOut(boxes, [c], payload)[c] == boxes[c] + [payload]
  {
    FanOutContents(boxes, [c], payload, c);
    assert Count([c], c) == 1 by { assert [c][..0] == []; }
    assert Copies(payload, 1) == [payload];
  }

  /** Successive sends to one client are read back in send order. */
  lemma SendsInOrder(boxes: Mailboxes, c: Uuid, m1: Bytes, m2: Bytes, m3: Bytes)
    requires c in boxes
    ensures FanOut(FanOut(FanOut(boxes, [c], m1), [c], m2), [c], m3)[c] == boxes[c] + [m1, m2, m3]
  {
    var b1 := FanOut(boxes, [c], m1);
    var b2 := FanOut(b1, [c], m2);
    SendOne(boxes, c, m1);
    SendOne(b1, c, m2);
    SendOne(b2, c, m3);
    assert boxes[c] + [m1] + [m2] + [m3] == boxes[c] + [m1, m2, m3];
  }

  /** Resolves the recipient list of a send before anything is delivered: an
      empty list or any malformed UUID is a bad request, any well-formed UUID
      that names no client is not found, and otherwise the parsed list comes
      back. */
  method ResolveRecipients(texts: seq<string>, known: set<Uuid>) returns (st: Status, ids: seq<Uuid>)
    ensures st == OK || st == BadRequest || st == NotFound
    ensures st == BadRequest <==> texts == [] || ParseAll(texts).None?
    ensures st == NotFound <==>
      texts != [] && ParseAll(texts).Some? && exists u :: u in ParseAll(texts).value && u !in known
    ensures st == OK ==> ParseAll(texts) == Some(ids) && forall u :: u in ids ==> u in known
  {
    ids := [];
    if |texts| == 0 {
      return BadRequest, [];
    }
    var i := 0;
    while i < |texts|
      invariant 0 <= i <= |texts|
      invariant |ids| == i
      invariant forall k :: 0 <= k < i ==> ParseUuid(texts[k]) == Some(ids[k])
    {
      var p := ParseUuid(texts[i]);
      if p.None? {
        assert !WellFormedUuid(texts[i]);
        return BadRequest, [];
      }
      ids := ids + [p.value];
      i := i + 1;
    }
    assert ParseAll(texts) == Some(ids) by {
      assert forall k :: 0 <= k < |texts| ==> WellFormedUuid(texts[k]);
      var all := ParseAll(texts).value;
      assert forall k :: 0 <= k < |ids| ==> all[k] == ids[k];
      assert all == ids;
    }
    var j := 0;
    while j < |ids|
      invariant 0 <= j <= |ids|
      invariant forall k :: 0 <= k < j ==> ids[k] in known
    {
      if ids[j] !in known {
        return NotFound, [];
      }
      j := j + 1;
    }
    st := OK;
  }

  /** Appends the payload to the mailbox of each entry of `rs`, one entry at a
      time, in list order. */
  method Deliver(boxes: Mailboxes, rs: seq<Uuid>, payload: Bytes) returns (r: Mailboxes)
    requires forall i :: 0 <= i < |rs| ==> rs[i] in boxes
    ensures r == FanOut(boxes, rs, payload)
  {
    r := boxes;
    var i := 0;
    while i < |rs|
      invariant 0 <= i <= |rs|
      invariant r == FanOut(boxes, rs[..i], payload)
    {
      assert rs[..i + 1][..i] == rs[..i];
      r := r[rs[i] := r[rs[i]] + [payload]];
      i := i + 1;
    }
    assert rs[..|rs|] == rs;
  }
}
