/** Textual UUIDs as the relay receives them in paths and request bodies.
    Only the hyphenated 8-4-4-4-12 form of RFC 4122 section 3 is accepted;
    a parsed UUID is kept in its canonical (lower-case) spelling, which is also
    how the server prints the UUIDs it hands out. */
module Uuids {
  import opened Common

  type Uuid = string

  const UuidLength: nat := 36

  predicate IsHexDigit(c: char)
  {
    '0' <= c <= '9' || 'a' <= c <= 'f' || 'A' <= c <= 'F'
  }

  predicate IsHyphenPosition(i: int)
  {
    i == 8 || i == 13 || i == 18 || i == 23
  }

  /** The RFC 4122 textual form: 32 hexadecimal digits in groups of 8, 4, 4, 4
      and 12, separated by hyphens. */
  predicate WellFormedUuid(s: string)
  {
    |s| == UuidLength &&
    forall i :: 0 <= i < |s| ==> if IsHyphenPosition(i) then s[i] == '-' else IsHexDigit(s[i])
  }

  /** How many hexadecimal digits `s` holds. */
  function HexDigitCount(s: string): (r: nat)
    ensures r <= |s|
  {
    if s == [] then 0
    else HexDigitCount(s[..|s| - 1]) + (if IsHexDigit(s[|s| - 1]) then 1 else 0)
  }

  lemma {:induction false} HexDigitCountAppend(a: string, b: string)
    ensures HexDigitCount(a + b) == HexDigitCount(a) + HexDigitCount(b)
    decreases |b|
  {
    if b != [] {
      assert (a + b)[..|a + b| - 1] == a + b[..|b| - 1];
      assert (a + b)[|a + b| - 1] == b[|b| - 1];
      HexDigitCountAppend(a, b[..|b| - 1]);
    } else {
      assert a + b == a;
    }
  }

  lemma {:induction false} AllHexDigits(s: string)
    requires forall i :: 0 <= i < |s| ==> IsHexDigit(s[i])
    ensures HexDigitCount(s) == |s|
    decreases |s|
  {
    if s != [] {
      AllHexDigits(s[..|s| - 1]);
    }
  }

  /** A well-formed UUID carries exactly 32 hexadecimal digits, the 128 bits
      of the UUID, around its four hyphens: a check that `WellFormedUuid`
      describes the RFC 4122 layout and nothing looser. */
  lemma WellFormedDigits(s: string)
    requires WellFormedUuid(s)
    ensures HexDigitCount(s) == 32
  {
    var g1, g2, g3, g4, g5 := s[..8], s[9..13], s[14..18], s[19..23], s[24..];
    AllHexDigits(g1);
    AllHexDigits(g2);
    AllHexDigits(g3);
    AllHexDigits(g4);
    AllHexDigits(g5);
    var h := ['-'];
    assert HexDigitCount(h) == 0 by { assert h[..0] == []; }
    assert s == g1 + h + g2 + h + g3 + h + g4 + h + g5;
    HexDigitCountAppend(g1, h);
    HexDigitCountAppend(g1 + h, g2);
    HexDigitCountAppend(g1 + h + g2, h);
    HexDigitCountAppend(g1 + h + g2 + h, g3);
    HexDigitCountAppend(g1 + h + g2 + h + g3, h);
    HexDigitCountAppend(g1 + h + g2 + h + g3 + h, g4);
    HexDigitCountAppend(g1 + h + g2 + h + g3 + h + g4, h);
    HexDigitCountAppend(g1 + h + g2 + h + g3 + h + g4 + h, g5);
  }

  /** A UUID as the server stores and prints it: well formed, lower-case digits. */
  predicate Canonical(u: Uuid)
  {
    WellFormedUuid(u) && forall i :: 0 <= i < |u| ==> !('A' <= u[i] <= 'F')
  }

  function LowerHex(c: char): (r: char)
    ensures 'A' <= c <= 'F' ==> 'a' <= r <= 'f'
    ensures !('A' <= c <= 'F') ==> r == c
  {
    if 'A' <= c <= 'F' then (c as int + 32) as char else c
  }

  /** Parses a textual UUID; upper- and lower-case digits denote the same UUID. */
  function ParseUuid(s: string): (r: Option<Uuid>)
    ensures r.Some? <==> WellFormedUuid(s)
    ensures r.Some? ==> Canonical(r.value)
  {
    if WellFormedUuid(s) then Some(seq(|s|, i requires 0 <= i < |s| => LowerHex(s[i]))) else None
  }

  /** Printing a UUID and parsing it back gives the same UUID. */
  lemma ParseCanonical(u: Uuid)
    requires Canonical(u)
    ensures ParseUuid(u) == Some(u)
  {
    var p := ParseUuid(u).value;
    assert |p| == |u|;
    forall i | 0 <= i < |u| ensures p[i] == u[i] {
      assert !('A' <= u[i] <= 'F');
    }
    assert p == u;
  }

  /** Parsing is insensitive to case: two spellings that differ only in the
      case of their digits name the same UUID. */
  lemma {:induction false} ParseIgnoresCase(s: string, t: string)
    requires WellFormedUuid(s) && WellFormedUuid(t)
    requires forall i :: 0 <= i < |s| ==> LowerHex(s[i]) == LowerHex(t[i])
    ensures ParseUuid(s) == ParseUuid(t)
  {
    var p, q := ParseUuid(s).value, ParseUuid(t).value;
    forall i | 0 <= i < |s| ensures p[i] == q[i] {
    }
    assert p == q;
  }

  /** Parses every entry of a list of textual UUIDs; fails if any entry is malformed. */
  function ParseAll(texts: seq<string>): (r: Option<seq<Uuid>>)
    ensures r.Some? <==> forall i :: 0 <= i < |texts| ==> WellFormedUuid(texts[i])
    ensures r.Some? ==> |r.value| == |texts|
    ensures r.Some? ==> forall i :: 0 <= i < |texts| ==> ParseUuid(texts[i]) == Some(r.value[i])
  {
    if texts == [] then Some([])
    else
      match (ParseUuid(texts[0]), ParseAll(texts[1..]))
      case (Some(u), Some(rest)) =>
        var r := [u] + rest;
        assert forall i :: 1 <= i < |texts| ==> texts[i] == texts[1..][i - 1] && r[i] == rest[i - 1];
        Some(r)
      case (None, _) => None
      case (_, None) =>
        assert exists i :: 1 <= i < |texts| && !WellFormedUuid(texts[i]) by {
          var k :| 0 <= k < |texts[1..]| && !WellFormedUuid(texts[1..][k]);
          assert texts[k + 1] == texts[1..][k];
        }
        None
  }

  /** Printing a list of UUIDs and parsing it back gives the same list. */
  lemma ParseAllCanonical(ids: seq<Uuid>)
    requires forall i :: 0 <= i < |ids| ==> Canonical(ids[i])
    ensures ParseAll(ids) == Some(ids)
  {
    forall i | 0 <= i < |ids| ensures ParseUuid(ids[i]) == Some(ids[i]) {
      ParseCanonical(ids[i]);
    }
    var parsed := ParseAll(ids).value;
    assert forall i :: 0 <= i < |ids| ==> parsed[i] == ids[i];
    assert parsed == ids;
  }
}
