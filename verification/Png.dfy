/** The custom-icon check: a chunk walker that accepts exactly the PNG streams of its grammar. */
module Png {
  type Byte = b: int | 0 <= b < 256

  type Bytes = seq<Byte>

  const SIGNATURE: Bytes := [0x89, 0x50, 0x4e, 0x47, 0x0d, 0x0a, 0x1a, 0x0a]
  const MAX_CUSTOM_ICON_BYTES: nat := 4 * 1024 * 1024
  const PNG_IHDR_LENGTH: nat := 13
  const MAX_CUSTOM_ICON_DIMENSION: nat := 4096

  // ---------------------------------------------------------------- the grammar

  /** How many numbers fit in `width` bytes. */
  function Capacity(width: nat): (n: nat)
  {
    if width == 0 then 1 else 256 * Capacity(width - 1)
  }

  function BigEndian(n: nat, width: nat): (b: Bytes)
    ensures |b| == width
  {
    if width == 0 then [] else BigEndian(n / 256, width - 1) + [n % 256]
  }

  /** `from_be_bytes`. */
  function FromBigEndian(b: Bytes): (n: nat)
    decreases |b|
  {
    if b == [] then 0 else 256 * FromBigEndian(b[..|b| - 1]) + b[|b| - 1]
  }

  lemma {:induction false} NumberRoundTrip(n: nat, width: nat)
    requires n < Capacity(width)
    ensures FromBigEndian(BigEndian(n, width)) == n
  {
    if width > 0 {
      NumberRoundTrip(n / 256, width - 1);
      assert BigEndian(n, width)[..width - 1] == BigEndian(n / 256, width - 1);
    }
  }

  lemma {:induction false} BytesRoundTrip(b: Bytes)
    ensures BigEndian(FromBigEndian(b), |b|) == b && FromBigEndian(b) < Capacity(|b|)
    decreases |b|
  {
    if b != [] {
      BytesRoundTrip(b[..|b| - 1]);
      assert b == b[..|b| - 1] + [b[|b| - 1]];
    }
  }

  datatype Kind = IHDR | IDAT | IEND | OtherKind

  function KindOf(b: Bytes): (k: Kind)
  {
    if b == [0x49, 0x48, 0x44, 0x52] then IHDR
    else if b == [0x49, 0x44, 0x41, 0x54] then IDAT
    else if b == [0x49, 0x45, 0x4e, 0x44] then IEND
    else OtherKind
  }

  /** Length, type, data and checksum: section 5.3 of the PNG Specification. */
  datatype Chunk = Chunk(tag: Bytes, data: Bytes, crc: Bytes)

  predicate WellSized(c: Chunk)
  {
    |c.tag| == 4 && |c.crc| == 4 && |c.data| < Capacity(4)
  }

  function Serialize(c: Chunk): (b: Bytes)
    requires WellSized(c)
    ensures |b| == 12 + |c.data|
  {
    BigEndian(|c.data|, 4) + c.tag + c.data + c.crc
  }

  function SerializeAll(cs: seq<Chunk>): (b: Bytes)
    requires forall i :: 0 <= i < |cs| ==> WellSized(cs[i])
  {
    if cs == [] then [] else Serialize(cs[0]) + SerializeAll(cs[1..])
  }

  predicate Header(kind: Kind, data: Bytes)
  {
    && kind == IHDR && |data| == PNG_IHDR_LENGTH
    && 1 <= FromBigEndian(data[..4]) <= MAX_CUSTOM_ICON_DIMENSION
    && 1 <= FromBigEndian(data[4..8]) <= MAX_CUSTOM_ICON_DIMENSION
  }

  /** A sequence of chunks that closes an image: `first` if the header is still to come, `sawIdat` if
      image data has been seen. */
  predicate Closes(cs: seq<Chunk>, first: bool, sawIdat: bool)
  {
    && cs != [] && (forall i :: 0 <= i < |cs| ==> WellSized(cs[i]))
    && (first ==> Header(KindOf(cs[0].tag), cs[0].data))
    && (forall i :: (if first then 1 else 0) <= i < |cs| ==> KindOf(cs[i].tag) != IHDR)
    && KindOf(cs[|cs| - 1].tag) == IEND && cs[|cs| - 1].data == []
    && (forall i :: 0 <= i < |cs| - 1 ==> KindOf(cs[i].tag) != IEND)
    && (sawIdat || exists i :: 0 <= i < |cs| && KindOf(cs[i].tag) == IDAT)
  }

  predicate IsIcon(bytes: Bytes, cs: seq<Chunk>)
  {
    && 45 <= |bytes| <= MAX_CUSTOM_ICON_BYTES
    && Closes(cs, true, false) && bytes == SIGNATURE + SerializeAll(cs)
  }

  // ---------------------------------------------------------------- the walk

  function LengthAt(bytes: Bytes, offset: nat): (n: nat)
    requires offset + 12 <= |bytes|
  {
    FromBigEndian(bytes[offset..offset + 4])
  }

  /** The chunk at `offset`. */
  function ChunkAt(bytes: Bytes, offset: nat): (c: Chunk)
    requires offset + 12 <= |bytes| && offset + 12 + LengthAt(bytes, offset) <= |bytes|
  {
    var dataEnd := offset + 8 + LengthAt(bytes, offset);
    Chunk(bytes[offset + 4..offset + 8], bytes[offset + 8..dataEnd], bytes[dataEnd..dataEnd + 4])
  }

  /** What the loop decides from a position on. */
  predicate Walks(bytes: Bytes, offset: nat, first: bool, sawIdat: bool)
    decreases |bytes| - offset
  {
    offset + 12 <= |bytes| && offset + 12 + LengthAt(bytes, offset) <= |bytes| &&
    var c, end := ChunkAt(bytes, offset), offset + 12 + LengthAt(bytes, offset);
    && (if first then Header(KindOf(c.tag), c.data) else KindOf(c.tag) != IHDR)
    && if KindOf(c.tag) == IEND then c.data == [] && sawIdat && end == |bytes|
       else Walks(bytes, end, false, sawIdat || KindOf(c.tag) == IDAT)
  }

  lemma ChunkSerializes(bytes: Bytes, offset: nat)
    requires offset + 12 <= |bytes| && offset + 12 + LengthAt(bytes, offset) <= |bytes|
    ensures WellSized(ChunkAt(bytes, offset))
    ensures bytes[offset..] == Serialize(ChunkAt(bytes, offset)) + bytes[offset + 12 + LengthAt(bytes, offset)..]
  {
    var n := LengthAt(bytes, offset);
    BytesRoundTrip(bytes[offset..offset + 4]);
    FourParts(bytes, offset, n);
  }

  lemma FourParts(bytes: Bytes, offset: nat, n: nat)
    requires offset + 12 + n <= |bytes|
    ensures bytes[offset..] ==
              bytes[offset..offset + 4] + bytes[offset + 4..offset + 8] + bytes[offset + 8..offset + 8 + n]
              + bytes[offset + 8 + n..offset + 8 + n + 4] + bytes[offset + 12 + n..]
  {
  }

  lemma Slice(bytes: Bytes, offset: nat, a: nat, b: nat)
    requires a <= b && offset + b <= |bytes|
    ensures bytes[offset..][a..b] == bytes[offset + a..offset + b]
  {
  }

  lemma Parts(a: Bytes, b: Bytes, c: Bytes, d: Bytes, e: Bytes)
    requires |a| == 4 && |b| == 4 && |d| == 4
    ensures var s, n := a + b + c + d + e, |c|;
            s[0..4] == a && s[4..8] == b && s[8..8 + n] == c && s[8 + n..12 + n] == d && s[12 + n..|s|] == e
  {
  }

  lemma ChunkParses(bytes: Bytes, offset: nat, c: Chunk, rest: Bytes)
    requires WellSized(c) && offset <= |bytes| && bytes[offset..] == Serialize(c) + rest
    ensures offset + 12 <= |bytes| && LengthAt(bytes, offset) == |c.data| && offset + 12 + |c.data| <= |bytes|
    ensures ChunkAt(bytes, offset) == c && bytes[offset + 12 + |c.data|..] == rest
  {
    var s := bytes[offset..];
    var n := |c.data|;
    NumberRoundTrip(n, 4);
    assert |s| == |bytes| - offset;
    Parts(BigEndian(n, 4), c.tag, c.data, c.crc, rest);
    Slice(bytes, offset, 0, 4);
    Slice(bytes, offset, 4, 8);
    Slice(bytes, offset, 8, 8 + n);
    Slice(bytes, offset, 8 + n, 12 + n);
    Slice(bytes, offset, 12 + n, |s|);
  }

  lemma FirstParses(bytes: Bytes, offset: nat, cs: seq<Chunk>)
    requires cs != [] && (forall i :: 0 <= i < |cs| ==> WellSized(cs[i])) && offset <= |bytes|
    requires bytes[offset..] == SerializeAll(cs)
    ensures offset + 12 <= |bytes| && LengthAt(bytes, offset) == |cs[0].data| && offset + 12 + |cs[0].data| <= |bytes|
    ensures ChunkAt(bytes, offset) == cs[0] && bytes[offset + 12 + |cs[0].data|..] == SerializeAll(cs[1..])
    ensures |cs| == 1 ==> offset + 12 + |cs[0].data| == |bytes|
  {
    ChunkParses(bytes, offset, cs[0], SerializeAll(cs[1..]));
    if |cs| == 1 {
      assert |bytes[offset + 12 + |cs[0].data|..]| == 0;
    }
  }

  lemma ConsCloses(c: Chunk, rest: seq<Chunk>, first: bool, sawIdat: bool)
    requires WellSized(c) && KindOf(c.tag) != IEND
    requires (if first then Header(KindOf(c.tag), c.data) else KindOf(c.tag) != IHDR)
    requires Closes(rest, false, sawIdat || KindOf(c.tag) == IDAT)
    ensures Closes([c] + rest, first, sawIdat) && SerializeAll([c] + rest) == Serialize(c) + SerializeAll(rest)
  {
    var cs := [c] + rest;
    assert cs[1..] == rest && cs[0] == c;
    if !sawIdat && KindOf(c.tag) != IDAT {
      var i :| 0 <= i < |rest| && KindOf(rest[i].tag) == IDAT;
      assert KindOf(cs[i + 1].tag) == IDAT;
    }
  }

  /** Whatever is walked is a serialized closing sequence of chunks. */
  lemma {:induction false} WalksGivesChunks(bytes: Bytes, offset: nat, first: bool, sawIdat: bool)
    returns (cs: seq<Chunk>)
    requires Walks(bytes, offset, first, sawIdat)
    ensures offset <= |bytes| && Closes(cs, first, sawIdat) && bytes[offset..] == SerializeAll(cs)
    decreases |bytes| - offset
  {
    var c, end := ChunkAt(bytes, offset), offset + 12 + LengthAt(bytes, offset);
    ChunkSerializes(bytes, offset);
    if KindOf(c.tag) == IEND {
      cs := [c];
      assert SerializeAll(cs) == Serialize(c) + SerializeAll([]);
    } else {
      var rest := WalksGivesChunks(bytes, end, false, sawIdat || KindOf(c.tag) == IDAT);
      cs := [c] + rest;
      ConsCloses(c, rest, first, sawIdat);
    }
  }

  lemma TailCloses(cs: seq<Chunk>, first: bool, sawIdat: bool)
    requires Closes(cs, first, sawIdat) && |cs| > 1
    ensures KindOf(cs[0].tag) != IEND && Closes(cs[1..], false, sawIdat || KindOf(cs[0].tag) == IDAT)
    ensures if first then Header(KindOf(cs[0].tag), cs[0].data) else KindOf(cs[0].tag) != IHDR
  {
    var rest := cs[1..];
    assert rest[|rest| - 1] == cs[|cs| - 1];
    if !sawIdat && KindOf(cs[0].tag) != IDAT {
      var i :| 0 <= i < |cs| && KindOf(cs[i].tag) == IDAT;
      assert KindOf(rest[i - 1].tag) == IDAT;
    }
  }

  lemma WalksOn(bytes: Bytes, offset: nat, c: Chunk, end: nat, first: bool, sawIdat: bool, seen: bool)
    requires Walks(bytes, end, false, seen) && seen == (sawIdat || KindOf(c.tag) == IDAT)
    requires offset + 12 <= |bytes| && offset + 12 + LengthAt(bytes, offset) == end <= |bytes|
    requires ChunkAt(bytes, offset) == c
    requires if first then Header(KindOf(c.tag), c.data) else KindOf(c.tag) != IHDR
    requires KindOf(c.tag) != IEND
    ensures Walks(bytes, offset, first, sawIdat)
  {
  }

  lemma WalksOut(bytes: Bytes, offset: nat, c: Chunk)
    requires offset + 12 <= |bytes| && offset + 12 + LengthAt(bytes, offset) == |bytes| && ChunkAt(bytes, offset) == c
    requires KindOf(c.tag) == IEND && KindOf(c.tag) != IHDR && c.data == []
    ensures Walks(bytes, offset, false, true)
  {
  }

  lemma LastCloses(cs: seq<Chunk>, first: bool, sawIdat: bool)
    requires Closes(cs, first, sawIdat) && |cs| == 1
    ensures KindOf(cs[0].tag) == IEND && KindOf(cs[0].tag) != IHDR && cs[0].data == [] && !first && sawIdat
  {
  }

  lemma LastWalks(bytes: Bytes, offset: nat, cs: seq<Chunk>, first: bool, sawIdat: bool)
    requires Closes(cs, first, sawIdat) && |cs| == 1 && offset <= |bytes| && bytes[offset..] == SerializeAll(cs)
    ensures Walks(bytes, offset, first, sawIdat)
  {
    FirstParses(bytes, offset, cs);
    LastCloses(cs, first, sawIdat);
    WalksOut(bytes, offset, cs[0]);
  }

  lemma TailParses(bytes: Bytes, offset: nat, cs: seq<Chunk>, first: bool, sawIdat: bool)
    returns (c: Chunk, end: nat, rest: seq<Chunk>)
    requires Closes(cs, first, sawIdat) && |cs| > 1 && offset <= |bytes| && bytes[offset..] == SerializeAll(cs)
    ensures offset + 12 <= |bytes| && end == offset + 12 + LengthAt(bytes, offset) <= |bytes|
    ensures ChunkAt(bytes, offset) == c
    ensures KindOf(c.tag) != IEND && (if first then Header(KindOf(c.tag), c.data) else KindOf(c.tag) != IHDR)
    ensures |rest| < |cs| && Closes(rest, false, sawIdat || KindOf(c.tag) == IDAT) && bytes[end..] == SerializeAll(rest)
  {
    FirstParses(bytes, offset, cs);
    TailCloses(cs, first, sawIdat);
    c, end, rest := cs[0], offset + 12 + |cs[0].data|, cs[1..];
  }

  /** Every serialized closing sequence of chunks is walked. */
  lemma {:induction false} ChunksGiveWalk(bytes: Bytes, offset: nat, cs: seq<Chunk>, first: bool, sawIdat: bool)
    requires Closes(cs, first, sawIdat) && offset <= |bytes| && bytes[offset..] == SerializeAll(cs)
    ensures Walks(bytes, offset, first, sawIdat)
    decreases |cs|
  {
    if |cs| == 1 {
      LastWalks(bytes, offset, cs, first, sawIdat);
    } else {
      var c, end, rest := TailParses(bytes, offset, cs, first, sawIdat);
      var seen := sawIdat || KindOf(c.tag) == IDAT;
      ChunksGiveWalk(bytes, end, rest, false, seen);
      WalksOn(bytes, offset, c, end, first, sawIdat, seen);
    }
  }

  /** Parsing is unambiguous: at most one sequence of chunks is behind an icon. */
  lemma {:induction false} ChunksUnique(a: seq<Chunk>, b: seq<Chunk>)
    requires forall i :: 0 <= i < |a| ==> WellSized(a[i])
    requires forall i :: 0 <= i < |b| ==> WellSized(b[i])
    requires SerializeAll(a) == SerializeAll(b)
    ensures a == b
    decreases |a|
  {
    if a != [] && b != [] {
      var s := SerializeAll(a);
      assert s[0..] == s;
      ChunkParses(s, 0, a[0], SerializeAll(a[1..]));
      ChunkParses(s, 0, b[0], SerializeAll(b[1..]));
      ChunksUnique(a[1..], b[1..]);
      assert a == [a[0]] + a[1..] && b == [b[0]] + b[1..];
    }
  }

  lemma Prefixes(bytes: Bytes, start: nat, n: nat)
    requires start + n <= |bytes| && n >= 8
    ensures bytes[start..start + n][..4] == bytes[start..start + 4]
    ensures bytes[start..start + n][4..8] == bytes[start + 4..start + 8]
  {
    var data := bytes[start..start + n];
    assert forall i :: 0 <= i < 4 ==> data[4..8][i] == bytes[start + 4..start + 8][i];
  }

  /** The checks of the header chunk, on the bytes at its place. */
  method CheckHeader(bytes: Bytes, dataStart: nat, length: nat, kind: Kind) returns (ok: bool)
    requires dataStart + length <= |bytes|
    ensures ok <==> Header(kind, bytes[dataStart..dataStart + length])
  {
    if length != PNG_IHDR_LENGTH || kind != IHDR {
      return false;
    }
    var width := FromBigEndian(bytes[dataStart..dataStart + 4]);
    var height := FromBigEndian(bytes[dataStart + 4..dataStart + 8]);
    Prefixes(bytes, dataStart, length);
    ok := !(width == 0 || height == 0 || width > MAX_CUSTOM_ICON_DIMENSION || height > MAX_CUSTOM_ICON_DIMENSION);
  }

  /** Accepts exactly the icons of the grammar, on every input. */
  method ValidatePngIcon(bytes: Bytes) returns (ok: bool)
    ensures ok <==> exists cs :: IsIcon(bytes, cs)
  {
    if |bytes| < 45 || |bytes| > MAX_CUSTOM_ICON_BYTES || bytes[..8] != SIGNATURE {
      NotWithoutSignature(bytes);
      return false;
    }
    IconIffWalks(bytes);
    ok := WalkChunks(bytes);
  }

  method WalkChunks(bytes: Bytes) returns (ok: bool)
    requires |bytes| >= 8
    ensures ok <==> Walks(bytes, 8, true, false)
  {
    var offset := 8;
    var firstChunk, sawIdat := true, false;
    while offset + 12 <= |bytes|
      invariant 8 <= offset <= |bytes|
      invariant Walks(bytes, 8, true, false) <==> Walks(bytes, offset, firstChunk, sawIdat)
    {
      var length := FromBigEndian(bytes[offset..offset + 4]);
      var kind := KindOf(bytes[offset + 4..offset + 8]);
      var dataStart := offset + 8;
      var dataEnd := dataStart + length;
      var chunkEnd := dataEnd + 4;
      if chunkEnd > |bytes| {
        return false;
      }
      if firstChunk {
        var header := CheckHeader(bytes, dataStart, length, kind);
        if !header {
          return false;
        }
        firstChunk := false;
      } else if kind == IHDR {
        return false;
      }
      if kind == IDAT {
        sawIdat := true;
      }
      if kind == IEND {
        return length == 0 && sawIdat && chunkEnd == |bytes|;
      }
      offset := chunkEnd;
    }
    return false;
  }

  lemma IconStartsWithSignature(bytes: Bytes, cs: seq<Chunk>)
    requires IsIcon(bytes, cs)
    ensures bytes[..8] == SIGNATURE
  {
    assert (SIGNATURE + SerializeAll(cs))[..8] == SIGNATURE;
  }

  lemma NotWithoutSignature(bytes: Bytes)
    requires |bytes| < 45 || |bytes| > MAX_CUSTOM_ICON_BYTES || bytes[..8] != SIGNATURE
    ensures !exists cs :: IsIcon(bytes, cs)
  {
    forall cs ensures !IsIcon(bytes, cs) {
      if IsIcon(bytes, cs) {
        IconStartsWithSignature(bytes, cs);
      }
    }
  }

  lemma IconIffWalks(bytes: Bytes)
    requires 45 <= |bytes| <= MAX_CUSTOM_ICON_BYTES && bytes[..8] == SIGNATURE
    ensures (exists cs :: IsIcon(bytes, cs)) <==> Walks(bytes, 8, true, false)
  {
    assert bytes == SIGNATURE + bytes[8..];
    if Walks(bytes, 8, true, false) {
      var cs := WalksGivesChunks(bytes, 8, true, false);
      assert IsIcon(bytes, cs);
    }
    forall cs | IsIcon(bytes, cs) ensures Walks(bytes, 8, true, false) {
      assert (SIGNATURE + SerializeAll(cs))[8..] == SerializeAll(cs);
      ChunksGiveWalk(bytes, 8, cs, true, false);
    }
  }
}
