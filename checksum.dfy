/**
 * Packet checksum and wire framing (`chsum` and `send` of both drivers).
 * A body is framed as `<ID` + address in lower-case hex + `>` + body +
 * checksum + `<E>`; the checksum is the XOR of the body's character
 * codes in upper-case hex and covers the body only.
 */
module Checksum {
  import opened Wrappers
  import Hex

  function Code(c: char): (n: nat)
    ensures n < 0x11_0000
  {
    c as int
  }

  /** Every character code of `s` is at most `limit`. */
  predicate Narrow(s: string, limit: nat)
  {
    forall i :: 0 <= i < |s| ==> Code(s[i]) <= limit
  }

  /** A character code as a 32-bit word (every code fits in 21 bits). */
  function Bits(c: char): bv32
  {
    (c as int) as bv32
  }

  /** XOR of all character codes. */
  function XorAll(s: string): (x: bv32)
    decreases |s|
  {
    if s == [] then 0 else XorAll(s[..|s| - 1]) ^ Bits(s[|s| - 1])
  }

  /** What `chsum` returns. */
  function Checksum(body: string): string
  {
    Hex.Pad2(XorAll(body) as nat, true)
  }

  /** `chsum`: accumulates the XOR in a loop, then renders it. */
  method Chsum(packet: string) returns (r: string)
    ensures r == Checksum(packet)
  {
    var cs: bv32 := 0;
    for i := 0 to |packet|
      invariant cs == XorAll(packet[..i])
    {
      assert packet[..i + 1][..i] == packet[..i];
      cs := cs ^ Bits(packet[i]);
    }
    assert packet[..|packet|] == packet;
    r := Hex.Pad2(cs as nat, true);
  }

  lemma {:induction false} XorAllAppend(a: string, b: string)
    ensures XorAll(a + b) == XorAll(a) ^ XorAll(b)
    decreases |b|
  {
    if b == [] {
      assert a + b == a;
    } else {
      assert (a + b)[..|a + b| - 1] == a + b[..|b| - 1];
      assert (a + b)[|a + b| - 1] == b[|b| - 1];
      XorAllAppend(a, b[..|b| - 1]);
      XorAssoc(XorAll(a), XorAll(b[..|b| - 1]), Bits(b[|b| - 1]));
    }
  }

  lemma XorAssoc(x: bv32, y: bv32, z: bv32)
    ensures (x ^ y) ^ z == x ^ (y ^ z)
  {
  }

  lemma XorAllSnoc(s: string, c: char)
    ensures XorAll(s + [c]) == XorAll(s) ^ Bits(c)
  {
    assert (s + [c])[..|s|] == s;
  }

  lemma XorSwap(l: bv32, c: bv32, r: bv32)
    ensures (l ^ c) ^ r == (l ^ r) ^ c
  {
  }

  /** Removing one character takes its code out of the XOR. */
  lemma XorAllRemove(s: string, k: nat)
    requires k < |s|
    ensures XorAll(s) == XorAll(s[..k] + s[k + 1..]) ^ Bits(s[k])
  {
    var left, right := s[..k], s[k + 1..];
    var mid := left + [s[k]];
    var x := Bits(s[k]);
    assert s == mid + right;
    XorAllSnoc(left, s[k]);
    XorAllAppend(mid, right);
    XorAllAppend(left, right);
    XorSwap(XorAll(left), x, XorAll(right));
  }

  /** Dropping the last character of `a` and one equal character of `b` keeps them permutations. */
  lemma MultisetDrop(a: string, b: string, j: nat)
    requires a != [] && j < |b| && b[j] == a[|a| - 1]
    requires multiset(a) == multiset(b)
    ensures multiset(a[..|a| - 1]) == multiset(b[..j] + b[j + 1..])
  {
    var x := b[j];
    assert b == b[..j] + [x] + b[j + 1..];
    assert a == a[..|a| - 1] + [x];
    var ma, mb := multiset(a[..|a| - 1]), multiset(b[..j] + b[j + 1..]);
    assert ma + multiset{x} == mb + multiset{x};
    assert ma == (ma + multiset{x}) - multiset{x};
    assert mb == (mb + multiset{x}) - multiset{x};
  }

  /** The checksum depends only on which characters occur, not on their order. */
  lemma {:induction false} XorAllPermutation(a: string, b: string)
    requires multiset(a) == multiset(b)
    ensures XorAll(a) == XorAll(b)
    decreases |a|
  {
    if a != [] {
      var x := a[|a| - 1];
      assert x in multiset(b);
      var j :| 0 <= j < |b| && b[j] == x;
      MultisetDrop(a, b, j);
      XorAllPermutation(a[..|a| - 1], b[..j] + b[j + 1..]);
      XorAllRemove(b, j);
    } else {
      assert |b| == |multiset(b)| == 0;
    }
  }

  /** Checksums of reordered bodies agree: in particular `chsum(a + b) == chsum(b + a)`. */
  lemma ChecksumPermutation(a: string, b: string)
    requires multiset(a) == multiset(b)
    ensures Checksum(a) == Checksum(b)
  {
    XorAllPermutation(a, b);
  }

  /** The checksum of a concatenation is the XOR of the parts' sums. */
  lemma ChecksumConcat(a: string, b: string)
    ensures Checksum(a + b) == Hex.Pad2((XorAll(a) ^ XorAll(b)) as nat, true)
    ensures Checksum(a + b) == Checksum(b + a)
  {
    XorAllAppend(a, b);
    XorAllAppend(b, a);
  }

  lemma BitsByte(c: char)
    requires Code(c) <= 255
    ensures Bits(c) < 256
  {
  }

  lemma XorByte(x: bv32, y: bv32)
    requires x < 256 && y < 256
    ensures x ^ y < 256
  {
  }

  lemma {:induction false} XorAllNarrow(s: string)
    requires Narrow(s, 255)
    ensures XorAll(s) < 256
    decreases |s|
  {
    if s != [] {
      XorAllNarrow(s[..|s| - 1]);
      var x := XorAll(s[..|s| - 1]);
      var y := Bits(s[|s| - 1]);
      BitsByte(s[|s| - 1]);
      XorByte(x, y);
    }
  }

  lemma ByteValue(x: bv32)
    requires x < 256
    ensures x as nat < 256
  {
  }

  /** A body of byte-sized characters has a two-character checksum. */
  lemma ChecksumLength(body: string)
    requires Narrow(body, 255)
    ensures |Checksum(body)| == 2
    ensures Hex.Parse(Checksum(body), true) == Some(XorAll(body) as nat)
  {
    XorAllNarrow(body);
    ByteValue(XorAll(body));
    Hex.Pad2Length(XorAll(body) as nat, true);
    Hex.Pad2RoundTrip(XorAll(body) as nat, true);
  }

  /** The frame `send` writes for `body` at `device`. */
  function Frame(device: nat, body: string): string
  {
    "<ID" + Hex.Pad2(device, false) + ">" + body + Checksum(body) + "<E>"
  }

  lemma {:induction false} DigitsAscii(n: nat, upper: bool)
    ensures Narrow(Hex.Digits(n, upper), 127)
    decreases n
  {
    if n >= 16 {
      DigitsAscii(n / 16, upper);
    }
  }

  lemma NarrowConcat(a: string, b: string, limit: nat)
    ensures Narrow(a + b, limit) <==> Narrow(a, limit) && Narrow(b, limit)
  {
    forall i | 0 <= i < |b|
      ensures (a + b)[|a| + i] == b[i]
    {
    }
    forall i | 0 <= i < |a|
      ensures (a + b)[i] == a[i]
    {
    }
    if Narrow(a, limit) && Narrow(b, limit) {
      forall i | 0 <= i < |a + b|
        ensures Code((a + b)[i]) <= limit
      {
        if i >= |a| {
          assert (a + b)[i] == b[i - |a|];
        }
      }
    }
  }

  /** The bytes `send` writes fit the serial write (at most `limit`, which is
      at least 127 on both boards) exactly when the body does: the address
      and the checksum are ASCII hex digits. */
  lemma FrameNarrow(device: nat, body: string, limit: nat)
    requires 127 <= limit
    ensures Narrow(Frame(device, body), limit) <==> Narrow(body, limit)
  {
    var id := Hex.Pad2(device, false);
    var cs := Checksum(body);
    DigitsAscii(device, false);
    DigitsAscii(XorAll(body) as nat, true);
    assert Narrow(id, limit) && Narrow(cs, limit);
    NarrowConcat("<ID" + id + ">", body, limit);
    NarrowConcat("<ID" + id + ">" + body, cs, limit);
    NarrowConcat("<ID" + id + ">" + body + cs, "<E>", limit);
    NarrowConcat("<ID" + id, ">", limit);
    NarrowConcat("<ID", id, limit);
  }

  datatype Wire = Wire(device: nat, body: string)

  /** Reads a frame of a one-byte address: prefix, address, body, checksum, terminator. */
  function ParseFrame(f: string): (r: Option<Wire>)
  {
    if |f| < 11 || f[..3] != "<ID" || f[5] != '>' || f[|f| - 3..] != "<E>" then None
    else match Hex.Parse(f[3..5], false)
      case None => None
      case Some(d) =>
        var body := f[6..|f| - 5];
        if Checksum(body) == f[|f| - 5..|f| - 3] then Some(Wire(d, body)) else None
  }

  /** A frame for a one-byte address and a byte-sized body reads back as that address and body. */
  lemma FrameRoundTrip(device: nat, body: string)
    requires device < 256 && Narrow(body, 255)
    ensures ParseFrame(Frame(device, body)) == Some(Wire(device, body))
  {
    var id := Hex.Pad2(device, false);
    var cs := Checksum(body);
    Hex.Pad2Length(device, false);
    Hex.Pad2RoundTrip(device, false);
    ChecksumLength(body);
    var f := Frame(device, body);
    assert f == "<ID" + id + ">" + body + cs + "<E>";
    assert |f| == 11 + |body|;
    assert f[..3] == "<ID";
    assert f[3..5] == id;
    assert f[5] == '>';
    assert f[6..|f| - 5] == body;
    assert f[|f| - 5..|f| - 3] == cs;
    assert f[|f| - 3..] == "<E>";
  }

  /** Whatever reads as a frame is exactly the frame of what it reads as. */
  lemma ParseFrameSound(f: string)
    requires ParseFrame(f).Some?
    ensures Frame(ParseFrame(f).value.device, ParseFrame(f).value.body) == f
  {
    var w := ParseFrame(f).value;
    Hex.Pad2Canonical(f[3..5], false);
    assert f == f[..3] + f[3..5] + [f[5]] + f[6..|f| - 5] + f[|f| - 5..|f| - 3] + f[|f| - 3..];
  }
}
