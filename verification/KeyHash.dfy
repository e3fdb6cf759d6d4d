/** The hash of a key and the files it names (key.rs:20-49, disk.rs:896-921). */
module KeyHash {
  import opened Filesystem

  type Byte = n: nat | n < 256

  /** The first 16 bytes of a SHA-256; which one a key has is not part of this model. */
  type Digest = d: seq<Byte> | |d| == 16 witness seq(16, _ => 0)

  /** `{:x}` of four bits */
  function Nibble(n: nat): (c: char)
    requires n < 16
    ensures if n < 10 then '0' <= c <= '9' else 'a' <= c <= 'f'
  {
    if n < 10 then '0' + n as char else 'a' + (n - 10) as char
  }

  /** `{:02x}` of every byte */
  function Hex(bytes: seq<Byte>): string {
    if bytes == [] then ""
    else Hex(bytes[..|bytes| - 1]) + [Nibble(bytes[|bytes| - 1] / 16), Nibble(bytes[|bytes| - 1] % 16)]
  }

  predicate LowerHex(c: char) {
    '0' <= c <= '9' || 'a' <= c <= 'f'
  }

  lemma {:induction false} HexLetters(bytes: seq<Byte>)
    ensures |Hex(bytes)| == 2 * |bytes| && forall i :: 0 <= i < |Hex(bytes)| ==> LowerHex(Hex(bytes)[i])
  {
    if bytes != [] { HexLetters(bytes[..|bytes| - 1]); }
  }

  /** Different digests have different texts. */
  lemma {:induction false} HexTells(a: seq<Byte>, b: seq<Byte>)
    requires |a| == |b| && Hex(a) == Hex(b)
    ensures a == b
  {
    if a != [] {
      var n, m := |a| - 1, 2 * (|a| - 1);
      HexLetters(a[..n]);
      HexLetters(b[..n]);
      assert Hex(a)[..m] == Hex(a[..n]) && Hex(b)[..m] == Hex(b[..n]);
      HexTells(a[..n], b[..n]);
      assert Hex(a)[m] == Nibble(a[n] / 16) && Hex(b)[m] == Nibble(b[n] / 16);
      assert Hex(a)[m + 1] == Nibble(a[n] % 16) && Hex(b)[m + 1] == Nibble(b[n] % 16);
      NibbleTells(a[n] / 16, b[n] / 16);
      NibbleTells(a[n] % 16, b[n] % 16);
      assert a == a[..n] + [a[n]] && b == b[..n] + [b[n]];
    }
  }

  lemma NibbleTells(a: nat, b: nat)
    requires a < 16 && b < 16 && Nibble(a) == Nibble(b)
    ensures a == b
  {
  }

  function HashHex(d: Digest): (h: string)
    ensures |h| == 32
  {
    HexLetters(d);
    Hex(d)
  }

  /** `objects/<h[..2]>/<h[2..4]>/` */
  function ShardOf(d: Digest): Shard {
    Shard(Utf8(HashHex(d)[..2]), Utf8(HashHex(d)[2..4]))
  }

  function BodyOf(d: Digest): Path {
    InShard(ShardOf(d), HashHex(d), BODY)
  }

  function MetaOf(d: Digest): Path {
    InShard(ShardOf(d), HashHex(d), META)
  }

  function PoisonOf(d: Digest): Path {
    InShard(ShardOf(d), HashHex(d), POISON)
  }

  /** The scans accept every hash as a stem, and give it back from the names made of it. */
  lemma HashIsStem(d: Digest)
    ensures HashStem(HashHex(d)) && Plain(HashHex(d))
  {
    HexLetters(d);
    HashesArePlain(HashHex(d));
  }
}
