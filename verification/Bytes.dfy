// Bytes and the 8-byte big-endian length words that every message carries
// (util/stream.go, core/protocol/payload_package.go).
module Bytes {
  type Byte = b: int | 0 <= b < 256

  /** Number of bytes in a length word. */
  const WORD: nat := 8

  /** One more than the largest length a slice can have on a 64-bit machine. */
  const LENGTH_LIMIT: nat := 0x8000_0000_0000_0000

  function Pow256(k: nat): (p: nat)
    ensures p >= 1
  {
    if k == 0 then 1 else 256 * Pow256(k - 1)
  }

  function Encode(n: nat, k: nat): (s: seq<Byte>)
    ensures |s| == k
  {
    if k == 0 then [] else Encode(n / 256, k - 1) + [n % 256]
  }

  function Decode(s: seq<Byte>): nat {
    if s == [] then 0 else 256 * Decode(s[..|s| - 1]) + s[|s| - 1]
  }

  function Word(n: nat): (s: seq<Byte>)
    ensures |s| == WORD
  {
    Encode(n, WORD)
  }

  /** Big-endian: the byte in front of n others weighs 256^n. */
  lemma {:induction false} HeadWeighs(b: Byte, s: seq<Byte>)
    ensures Decode([b] + s) == b * Pow256(|s|) + Decode(s)
  {
    if s == [] {
      assert [b] + s == [b];
    } else {
      var n := |s| - 1;
      assert ([b] + s)[..|s|] == [b] + s[..n];
      HeadWeighs(b, s[..n]);
      assert b * (256 * Pow256(n)) == 256 * (b * Pow256(n));
    }
  }

  lemma {:induction false} DecodeEncode(n: nat, k: nat)
    requires n < Pow256(k)
    ensures Decode(Encode(n, k)) == n
  {
    if k > 0 {
      var s := Encode(n, k);
      assert s[..k - 1] == Encode(n / 256, k - 1);
      DecodeEncode(n / 256, k - 1);
    }
  }

  lemma {:induction false} EncodeDecode(s: seq<Byte>)
    ensures Decode(s) < Pow256(|s|)
    ensures Encode(Decode(s), |s|) == s
  {
    if s != [] {
      EncodeDecode(s[..|s| - 1]);
      assert s == s[..|s| - 1] + [s[|s| - 1]];
    }
  }

  /** Eight bytes hold every length, and a length word determines the length. */
  lemma WordRoundTrip(n: nat)
    requires n < LENGTH_LIMIT
    ensures Decode(Word(n)) == n
  {
    PowWord();
    DecodeEncode(n, WORD);
  }

  lemma WordOfDecode(s: seq<Byte>)
    requires |s| == WORD
    ensures Word(Decode(s)) == s && Decode(s) < 2 * LENGTH_LIMIT
  {
    PowWord();
    EncodeDecode(s);
  }

  lemma PowWord()
    ensures Pow256(WORD) == 2 * LENGTH_LIMIT
  {
    assert Pow256(4) == 0x1_0000_0000;
    assert Pow256(8) == 256 * (256 * (256 * (256 * Pow256(4))));
  }
}
