// Bytes and the 32-bit little-endian accessors of a Buffer.
module Bytes {
  type byte = b: int | 0 <= b < 256

  const INT32_MIN := -0x8000_0000
  const INT32_MAX := 0x7fff_ffff

  predicate IsInt32(v: int)
  {
    INT32_MIN <= v <= INT32_MAX
  }

  // readUInt32LE; a Buffer throws when fewer than four bytes are left.
  function ReadUInt32LE(s: seq<byte>, i: nat): (v: int)
    requires i + 4 <= |s|
    ensures 0 <= v < 0x1_0000_0000
  {
    s[i] as int + 0x100 * s[i + 1] as int + 0x1_0000 * s[i + 2] as int + 0x100_0000 * s[i + 3] as int
  }

  // readInt32LE: the same four bytes in two's complement.
  function ReadInt32LE(s: seq<byte>, i: nat): (v: int)
    requires i + 4 <= |s|
    ensures IsInt32(v)
  {
    var u := ReadUInt32LE(s, i);
    if u > INT32_MAX then u - 0x1_0000_0000 else u
  }

  // writeInt32LE; a Buffer throws when v is not a 32-bit integer.
  function WriteInt32LE(v: int): (s: seq<byte>)
    requires IsInt32(v)
    ensures |s| == 4
  {
    var u := if v < 0 then v + 0x1_0000_0000 else v;
    [u % 0x100, u / 0x100 % 0x100, u / 0x1_0000 % 0x100, u / 0x100_0000]
  }

  lemma ReadWriteInt32(v: int, s: seq<byte>, i: nat)
    requires IsInt32(v)
    requires i + 4 <= |s| && s[i..i + 4] == WriteInt32LE(v)
    ensures ReadInt32LE(s, i) == v
    ensures v >= 0 ==> ReadUInt32LE(s, i) == v
  {
    var u := if v < 0 then v + 0x1_0000_0000 else v;
    var word := s[i..i + 4];
    assert s[i] == word[0] && s[i + 1] == word[1] && s[i + 2] == word[2] && s[i + 3] == word[3];
    Digits256(u);
  }

  lemma Digits256(u: int)
    requires 0 <= u < 0x1_0000_0000
    ensures u == u % 0x100 + 0x100 * (u / 0x100 % 0x100) + 0x1_0000 * (u / 0x1_0000 % 0x100)
                 + 0x100_0000 * (u / 0x100_0000)
  {
    assert u / 0x1_0000 == u / 0x100 / 0x100 && u / 0x100_0000 == u / 0x1_0000 / 0x100;
  }

  // Buffer.copy: source bytes into a target buffer, as many as fit, and how many that was.
  method Copy(source: seq<byte>, target: array<byte>, targetStart: nat, sourceStart: nat, sourceEnd: nat)
    returns (copied: nat)
    requires targetStart <= target.Length && sourceStart <= sourceEnd <= |source|
    modifies target
    ensures copied == if sourceEnd - sourceStart < target.Length - targetStart
                      then sourceEnd - sourceStart else target.Length - targetStart
    ensures target[..targetStart] == old(target[..targetStart])
    ensures target[targetStart..targetStart + copied] == source[sourceStart..sourceStart + copied]
    ensures target[targetStart + copied..] == old(target[targetStart + copied..])
  {
    copied := if sourceEnd - sourceStart < target.Length - targetStart
              then sourceEnd - sourceStart else target.Length - targetStart;
    forall k | 0 <= k < copied {
      target[targetStart + k] := source[sourceStart + k];
    }
  }
}
