/**
 * The tag id formatting of `onTagDiscovered` in `MainActivity.kt`: the bytes of an NFC tag id,
 * each as two upper-case hexadecimal digits, joined by `:`.
 */
module TagUid {
  import opened Wrappers

  /** A Kotlin `Byte`: signed, eight bits. */
  newtype Byte = x: int | -128 <= x < 128

  /** An upper-case hexadecimal digit. */
  predicate IsHexDigit(c: char) {
    '0' <= c <= '9' || 'A' <= c <= 'F'
  }

  /** The upper-case hexadecimal digit of a value below 16. */
  function HexDigit(d: nat): (c: char)
    requires d < 16
    ensures IsHexDigit(c)
  {
    if d < 10 then ('0' as int + d) as char else ('A' as int + d - 10) as char
  }

  /** The value of an upper-case hexadecimal digit. */
  function HexValue(c: char): (r: Option<nat>)
    ensures r.Some? <==> IsHexDigit(c)
    ensures r.Some? ==> r.value < 16 && HexDigit(r.value) == c
  {
    if '0' <= c <= '9' then Some(c as nat - '0' as nat)
    else if 'A' <= c <= 'F' then Some(c as nat - 'A' as nat + 10)
    else None
  }

  /** The unsigned value Kotlin formats for a byte: a negative byte is taken as `b + 256`. */
  function Unsigned(b: Byte): (u: nat)
    ensures u < 256
    ensures b >= 0 ==> u == b as int
  {
    if b < 0 then b as int + 256 else b as int
  }

  /** `"%02X".format(b)`: the two upper-case hexadecimal digits of the byte's unsigned value. */
  function Hex2(b: Byte): (r: string)
    ensures |r| == 2 && IsHexDigit(r[0]) && IsHexDigit(r[1])
  {
    var u := Unsigned(b);
    [HexDigit(u / 16), HexDigit(u % 16)]
  }

  /** Two hexadecimal digits read back as a signed byte. */
  function FromHex2(hi: char, lo: char): (r: Option<Byte>)
    ensures r.Some? <==> IsHexDigit(hi) && IsHexDigit(lo)
  {
    match (HexValue(hi), HexValue(lo))
    case (Some(h), Some(l)) =>
      var u: int := 16 * h + l;
      assert u < 256;
      Some(if u >= 128 then (u - 256) as Byte else u as Byte)
    case _ => None
  }

  /** Every byte is printed as two digits that read back as that byte. */
  lemma Hex2RoundTrip(b: Byte)
    ensures FromHex2(Hex2(b)[0], Hex2(b)[1]) == Some(b)
  {
    var u := Unsigned(b);
    var hi, lo := u / 16, u % 16;
    assert HexValue(HexDigit(hi)) == Some(hi);
    assert HexValue(HexDigit(lo)) == Some(lo);
    assert 16 * hi + lo == u;
  }

  /** `idBytes.joinToString(":") { "%02X".format(it) }`. */
  function Uid(bytes: seq<Byte>): string {
    if bytes == [] then ""
    else if |bytes| == 1 then Hex2(bytes[0])
    else Uid(bytes[..|bytes| - 1]) + ":" + Hex2(bytes[|bytes| - 1])
  }

  lemma {:induction false} UidLength(bytes: seq<Byte>)
    ensures |Uid(bytes)| == if bytes == [] then 0 else 3 * |bytes| - 1
    decreases |bytes|
  {
    if |bytes| > 1 {
      UidLength(bytes[..|bytes| - 1]);
    }
  }

  /** The `k`-th byte's digits sit at `3k` and `3k + 1`, and a `:` follows every byte but the last. */
  lemma {:induction false} UidAt(bytes: seq<Byte>, k: nat)
    requires k < |bytes|
    ensures |Uid(bytes)| == 3 * |bytes| - 1
    ensures Uid(bytes)[3 * k] == Hex2(bytes[k])[0] && Uid(bytes)[3 * k + 1] == Hex2(bytes[k])[1]
    ensures k + 1 < |bytes| ==> Uid(bytes)[3 * k + 2] == ':'
    decreases |bytes|
  {
    UidLength(bytes);
    if |bytes| > 1 {
      var init, last := bytes[..|bytes| - 1], bytes[|bytes| - 1];
      var head := Uid(init);
      UidLength(init);
      assert Uid(bytes) == head + ":" + Hex2(last);
      if k < |init| {
        UidAt(init, k);
        assert 3 * k + 1 < |head|;
        assert bytes[k] == init[k];
      } else {
        assert 3 * k == |head| + 1;
      }
    }
  }

  /** A position as the group it falls in and its place within the group. */
  lemma Split3(i: nat) returns (k: nat, r: nat)
    ensures i == 3 * k + r && r < 3 && r == i % 3
  {
    k, r := i / 3, i % 3;
  }

  /** A character of a uid is `:` exactly when its position is 2 more than a multiple of 3. */
  lemma UidColonAt(bytes: seq<Byte>, i: nat)
    requires i < |Uid(bytes)|
    ensures Uid(bytes)[i] == ':' <==> i % 3 == 2
  {
    UidLength(bytes);
    var k, r := Split3(i);
    UidAt(bytes, k);
    if r == 0 {
      assert Uid(bytes)[i] == Hex2(bytes[k])[0];
    } else if r == 1 {
      assert Uid(bytes)[i] == Hex2(bytes[k])[1];
    }
  }

  /**
   * The uid of a tag of n bytes is 3n - 1 characters long and has `:` exactly at the positions
   * 2, 5, 8, ...; between them stand the two digits of each byte, in order.
   */
  lemma UidShape(bytes: seq<Byte>)
    ensures |Uid(bytes)| == if bytes == [] then 0 else 3 * |bytes| - 1
    ensures forall i :: 0 <= i < |Uid(bytes)| ==> (Uid(bytes)[i] == ':' <==> i % 3 == 2)
    ensures forall k :: 0 <= k < |bytes| ==> Uid(bytes)[3 * k..3 * k + 2] == Hex2(bytes[k])
  {
    UidLength(bytes);
    forall i | 0 <= i < |Uid(bytes)|
      ensures Uid(bytes)[i] == ':' <==> i % 3 == 2
    {
      UidColonAt(bytes, i);
    }
    forall k | 0 <= k < |bytes|
      ensures Uid(bytes)[3 * k..3 * k + 2] == Hex2(bytes[k])
    {
      UidAt(bytes, k);
    }
  }

  /** The inverse of `Uid`: an id of two-digit groups separated by `:` read back as bytes. */
  function ParseUid(s: string): Option<seq<Byte>>
    decreases |s|
  {
    if s == [] then Some([])
    else if |s| == 2 then
      match FromHex2(s[0], s[1])
      case None => None
      case Some(b) => Some([b])
    else if |s| >= 5 && s[|s| - 3] == ':' then
      match (ParseUid(s[..|s| - 3]), FromHex2(s[|s| - 2], s[|s| - 1]))
      case (Some(init), Some(b)) => Some(init + [b])
      case _ => None
    else None
  }

  /** One more group at the end of an id adds its byte to what the id reads back as. */
  lemma ParseUidSnoc(head: string, b: Byte)
    requires |head| >= 2
    ensures ParseUid(head + ":" + Hex2(b)) == if ParseUid(head).Some? then Some(ParseUid(head).value + [b]) else None
  {
    var s := head + ":" + Hex2(b);
    Hex2RoundTrip(b);
    assert s[..|s| - 3] == head;
    assert s[|s| - 3] == ':';
    assert s[|s| - 2] == Hex2(b)[0] && s[|s| - 1] == Hex2(b)[1];
  }

  /** The uid of a one-byte tag reads back as that byte. */
  lemma ParseHex2(b: Byte)
    ensures ParseUid(Hex2(b)) == Some([b])
  {
    Hex2RoundTrip(b);
  }

  /** Reading a formatted id back gives the tag's bytes. */
  lemma {:induction false} UidRoundTrip(bytes: seq<Byte>)
    ensures ParseUid(Uid(bytes)) == Some(bytes)
    decreases |bytes|
  {
    if bytes == [] {
    } else if |bytes| == 1 {
      ParseHex2(bytes[0]);
      assert [bytes[0]] == bytes;
    } else {
      var init, b := bytes[..|bytes| - 1], bytes[|bytes| - 1];
      UidRoundTrip(init);
      UidLength(init);
      ParseUidSnoc(Uid(init), b);
      assert init + [b] == bytes;
    }
  }

  /** Different tag ids give different uids. */
  lemma UidInjective(a: seq<Byte>, b: seq<Byte>)
    requires Uid(a) == Uid(b)
    ensures a == b
  {
    UidRoundTrip(a);
    UidRoundTrip(b);
  }
}
