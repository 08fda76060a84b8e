/** The binary form of a cached download: a version byte, then length-prefixed fields.  Lengths are
    base-128 varints of at most ten bytes, the time is a big-endian signed 64-bit count of seconds. */
module SavedBinary {
  import opened Bytes
  import opened Optional

  const TWO_63: int := 0x8000_0000_0000_0000
  const TWO_64: int := 0x1_0000_0000_0000_0000

  datatype Fields = Fields(content: seq<Byte>, updated: int, etag: seq<Byte>, urlHash: seq<Byte>) {
    /** What the types of the program guarantee: lengths and times fit in 64 bits. */
    predicate Fits() {
      |content| < TWO_64 && |etag| < TWO_64 && |urlHash| < TWO_64 && -TWO_63 <= updated < TWO_63
    }
  }

  datatype Parsed<+T> = Parsed(value: T, rest: seq<Byte>)

  // ----- varints -----

  function Uvarint(v: nat): (out: seq<Byte>)
    ensures out != []
  {
    if v < 128 then [v] else [v % 128 + 128] + Uvarint(v / 128)
  }

  /** The weight of the `i`-th group of seven bits. */
  function Groups(i: nat): (g: nat)
    ensures g > 0
  {
    if i == 0 then 1 else 128 * Groups(i - 1)
  }

  /** Seven bits a byte, the least significant first; every byte but the last is marked. */
  lemma {:induction false} UvarintAt(v: nat, i: nat)
    requires i < |Uvarint(v)|
    ensures Uvarint(v)[i] % 128 == v / Groups(i) % 128 && (Uvarint(v)[i] >= 128 <==> i < |Uvarint(v)| - 1)
  {
    if i > 0 {
      UvarintAt(v / 128, i - 1);
      DivTwice(v, 128, Groups(i - 1));
    }
  }

  lemma DivIs(u: nat, d: nat, q: nat, m: nat)
    requires u == d * q + m && m < d
    ensures u / d == q
  {
    var k: int := u / d - q;
    assert d * k == m - u % d;
    assert k >= 1 ==> d * k >= d;
    assert k <= -1 ==> d * k + d <= 0;
  }

  lemma Distribute(b: nat, x: nat, y: nat)
    ensures b * (x + y) == b * x + b * y
  {
  }

  lemma Regroup(b: nat, c: nat, q: nat)
    ensures (b * c) * q == b * (c * q)
  {
  }

  lemma DivTwice(u: nat, b: nat, c: nat)
    requires b > 0 && c > 0
    ensures b * c > 0 && u / b / c == u / (b * c)
  {
    var x, m := u / b, u % b;
    var q, k := x / c, x % c;
    assert u == b * x + m && x == c * q + k;
    Distribute(b, c * q, k);
    Regroup(b, c, q);
    assert b * k + b <= b * c by {
      Distribute(b, k, 1);
      Distribute(b, k + 1, c - k - 1);
    }
    DivIs(u, b * c, q, b * k + m);
  }

  /** What is left of 64 bits after `i` groups of seven. */
  function Room(i: nat): nat
    requires i < 10
  {
    if i == 0 then TWO_64 else Room(i - 1) / 128
  }

  /** Reading the varint bytes from the `i`-th on. */
  function ParseUvarint(data: seq<Byte>, i: nat): Option<Parsed<nat>>
    decreases |data|
  {
    if data == [] || i >= 10 then None
    else if data[0] < 128 then
      if i == 9 && data[0] > 1 then None else Some(Parsed(data[0], data[1..]))
    else
      var tail := ParseUvarint(data[1..], i + 1);
      if tail.None? then None else Some(Parsed(data[0] - 128 + 128 * tail.value.value, tail.value.rest))
  }

  lemma RoomShrinks(v: nat, i: nat)
    requires i < 10 && 128 <= v < Room(i)
    ensures i < 9 && v / 128 < Room(i + 1)
  {
    RoomAtEnd();
    if i < 9 { assert Room(i + 1) == Room(i) / 128; }
  }

  lemma {:induction false} UvarintRoundTrip(v: nat, i: nat, rest: seq<Byte>)
    requires i < 10 && v < Room(i)
    ensures ParseUvarint(Uvarint(v) + rest, i) == Some(Parsed(v, rest))
  {
    var data := Uvarint(v) + rest;
    RoomAtEnd();
    if v < 128 {
      assert data == [v] + rest && data[1..] == rest;
    } else {
      RoomShrinks(v, i);
      UvarintRoundTrip(v / 128, i + 1, rest);
      assert data[0] == v % 128 + 128 && data[1..] == Uvarint(v / 128) + rest;
    }
  }

  lemma RoomAtEnd()
    ensures Room(9) == 2
  {
    assert Room(3) == TWO_64 / 0x20_0000;
    assert Room(6) == TWO_64 / 0x400_0000_0000;
  }

  /** An accepted varint fits in what is left of 64 bits, and takes at most ten bytes in all. */
  lemma {:induction false} UvarintFits(data: seq<Byte>, i: nat)
    requires i < 10 && ParseUvarint(data, i).Some?
    ensures var p := ParseUvarint(data, i).value;
            && p.value < Room(i)
            && |data| - 10 + i <= |p.rest| < |data| && data == data[..|data| - |p.rest|] + p.rest
    decreases |data|
  {
    RoomAtEnd();
    if data[0] >= 128 {
      UvarintFits(data[1..], i + 1);
      assert Room(i + 1) == Room(i) / 128;
      var p := ParseUvarint(data, i).value;
      var k := |data| - |p.rest|;
      assert data[1..] == data[1..][..k - 1] + p.rest;
      assert data[k..] == data[1..][k - 1..];
    } else {
      SmallFits(i);
    }
  }

  lemma {:induction false} SmallFits(i: nat)
    requires i < 10
    ensures Room(i) >= if i == 9 then 2 else 128
    decreases 10 - i
  {
    RoomAtEnd();
    if i < 9 {
      SmallFits(i + 1);
      assert Room(i + 1) == Room(i) / 128;
    }
  }

  // ----- integers -----

  function BigEndian(u: nat, n: nat): (out: seq<Byte>)
    ensures |out| == n
  {
    if n == 0 then [] else BigEndian(u / 256, n - 1) + [u % 256]
  }

  function FromBigEndian(bytes: seq<Byte>): nat {
    if bytes == [] then 0 else 256 * FromBigEndian(bytes[..|bytes| - 1]) + bytes[|bytes| - 1]
  }

  function Capacity(n: nat): (c: nat)
    ensures c > 0
  {
    if n == 0 then 1 else 256 * Capacity(n - 1)
  }

  lemma {:induction false} BigEndianRoundTrip(u: nat, n: nat)
    requires u < Capacity(n)
    ensures FromBigEndian(BigEndian(u, n)) == u
  {
    if n > 0 {
      BigEndianRoundTrip(u / 256, n - 1);
      assert BigEndian(u, n)[..n - 1] == BigEndian(u / 256, n - 1);
    }
  }

  /** Each byte has the weight of its place: the first is the most significant. */
  lemma {:induction false} BigEndianAt(u: nat, n: nat, i: nat)
    requires i < n
    ensures BigEndian(u, n)[i] == u / Capacity(n - 1 - i) % 256
  {
    if i < n - 1 {
      BigEndianAt(u / 256, n - 1, i);
      DivTwice(u, 256, Capacity(n - 2 - i));
    }
  }

  lemma EightBytes()
    ensures Capacity(8) == TWO_64
  {
    assert Capacity(4) == 0x1_0000_0000;
  }

  function ToUnsigned(s: int): nat
    requires -TWO_63 <= s < TWO_63
  {
    if s < 0 then s + TWO_64 else s
  }

  function ToSigned(u: nat): int { if u < TWO_63 then u else u - TWO_64 }

  function ParseInt64(data: seq<Byte>): Option<Parsed<int>> {
    if |data| < 8 then None else Some(Parsed(ToSigned(FromBigEndian(data[..8])), data[8..]))
  }

  lemma Int64RoundTrip(s: int, rest: seq<Byte>)
    requires -TWO_63 <= s < TWO_63
    ensures ParseInt64(BigEndian(ToUnsigned(s), 8) + rest) == Some(Parsed(s, rest))
  {
    EightBytes();
    BigEndianRoundTrip(ToUnsigned(s), 8);
    var data := BigEndian(ToUnsigned(s), 8) + rest;
    assert data[..8] == BigEndian(ToUnsigned(s), 8) && data[8..] == rest;
  }

  // ----- fields -----

  function Prefixed(bytes: seq<Byte>): seq<Byte> { Uvarint(|bytes|) + bytes }

  function ParsePrefixed(data: seq<Byte>): Option<Parsed<seq<Byte>>> {
    var n := ParseUvarint(data, 0);
    if n.None? || n.value.value > |n.value.rest| then None
    else Some(Parsed(n.value.rest[..n.value.value], n.value.rest[n.value.value..]))
  }

  lemma PrefixedRoundTrip(bytes: seq<Byte>, rest: seq<Byte>)
    requires |bytes| < TWO_64
    ensures ParsePrefixed(Prefixed(bytes) + rest) == Some(Parsed(bytes, rest))
  {
    UvarintRoundTrip(|bytes|, 0, bytes + rest);
    assert Prefixed(bytes) + rest == Uvarint(|bytes|) + (bytes + rest);
    assert (bytes + rest)[..|bytes|] == bytes && (bytes + rest)[|bytes|..] == rest;
  }

  /** An accepted field lies inside the input: a header of one to ten bytes, the field, the rest. */
  lemma PrefixedIsInside(data: seq<Byte>)
    requires ParsePrefixed(data).Some?
    ensures var p := ParsePrefixed(data).value;
            var header := |data| - |p.value| - |p.rest|;
            && 1 <= header <= 10 && data == data[..header] + p.value + p.rest
            && ParseUvarint(data, 0).value.value == |p.value| < TWO_64
  {
    UvarintFits(data, 0);
    var n := ParseUvarint(data, 0).value;
    assert n.rest == n.rest[..n.value] + n.rest[n.value..];
    assert data[..|data| - |n.rest|] + (n.rest[..n.value] + n.rest[n.value..])
        == data[..|data| - |n.rest|] + n.rest[..n.value] + n.rest[n.value..];
  }

  /** The encoding under a version byte; version 2 adds the URL hash. */
  function Encoded(version: Byte, f: Fields): seq<Byte>
    requires f.Fits()
  {
    [version] + (Prefixed(f.content) + (BigEndian(ToUnsigned(f.updated), 8) +
      (Prefixed(f.etag) + if version < 2 then [] else Prefixed(f.urlHash))))
  }

  datatype Decoded = Decoded(fields: Fields, ok: bool)

  /** Decoding into existing fields: each is replaced as soon as it has been read. */
  function Decode(f: Fields, data: seq<Byte>): Decoded {
    if data == [] then Decoded(f, false)
    else
      var content := ParsePrefixed(data[1..]);
      if content.None? then Decoded(f, false) else DecodeTime(f.(content := content.value.value), data[0], content.value.rest)
  }

  function DecodeTime(f: Fields, version: Byte, data: seq<Byte>): Decoded {
    var updated := ParseInt64(data);
    if updated.None? then Decoded(f, false) else DecodeTags(f.(updated := updated.value.value), version, updated.value.rest)
  }

  function DecodeTags(f: Fields, version: Byte, data: seq<Byte>): Decoded {
    var etag := ParsePrefixed(data);
    if etag.None? then Decoded(f, false)
    else
      var g := f.(etag := etag.value.value);
      if version < 2 then Decoded(g, true)
      else
        var hash := ParsePrefixed(etag.value.rest);
        if hash.None? then Decoded(g, false) else Decoded(g.(urlHash := hash.value.value), true)
  }

  // ----- theorems -----

  lemma TagsRoundTrip(f: Fields, g: Fields, version: Byte, trailing: seq<Byte>)
    requires f.Fits()
    ensures DecodeTags(g, version, Prefixed(f.etag) + (if version < 2 then [] else Prefixed(f.urlHash)) + trailing)
            == Decoded(g.(etag := f.etag, urlHash := if version < 2 then g.urlHash else f.urlHash), true)
  {
    var hash := if version < 2 then [] else Prefixed(f.urlHash);
    PrefixedRoundTrip(f.etag, hash + trailing);
    assert Prefixed(f.etag) + hash + trailing == Prefixed(f.etag) + (hash + trailing);
    if version >= 2 { PrefixedRoundTrip(f.urlHash, trailing); }
  }

  lemma TimeRoundTrip(f: Fields, g: Fields, version: Byte, trailing: seq<Byte>)
    requires f.Fits()
    ensures var tail := Prefixed(f.etag) + if version < 2 then [] else Prefixed(f.urlHash);
            DecodeTime(g, version, BigEndian(ToUnsigned(f.updated), 8) + (tail + trailing))
            == Decoded(Fields(g.content, f.updated, f.etag, if version < 2 then g.urlHash else f.urlHash), true)
  {
    var tail := Prefixed(f.etag) + if version < 2 then [] else Prefixed(f.urlHash);
    Int64RoundTrip(f.updated, tail + trailing);
    TagsRoundTrip(f, g.(updated := f.updated), version, trailing);
  }

  lemma Reassociate(version: Byte, a: seq<Byte>, b: seq<Byte>, c: seq<Byte>, d: seq<Byte>)
    ensures var data := [version] + (a + (b + c)) + d; data[0] == version && data[1..] == a + (b + (c + d))
  {
  }

  /** Decoding what was encoded, whatever follows it and whatever the target held before, gives the
      fields back; an encoding older than version 2 leaves the hash of the target alone. */
  lemma RoundTrip(version: Byte, f: Fields, before: Fields, trailing: seq<Byte>)
    requires f.Fits()
    ensures Decode(before, Encoded(version, f) + trailing)
            == Decoded(f.(urlHash := if version < 2 then before.urlHash else f.urlHash), true)
  {
    var tail := Prefixed(f.etag) + if version < 2 then [] else Prefixed(f.urlHash);
    var time := BigEndian(ToUnsigned(f.updated), 8);
    var data := Encoded(version, f) + trailing;
    Reassociate(version, Prefixed(f.content), time, tail, trailing);
    PrefixedRoundTrip(f.content, time + (tail + trailing));
    TimeRoundTrip(f, before.(content := f.content), version, trailing);
  }

  /** No encoding is the beginning of another. */
  lemma EncodingIsPrefixFree(f: Fields, g: Fields, after: seq<Byte>, then': seq<Byte>)
    requires f.Fits() && g.Fits() && Encoded(2, f) + after == Encoded(2, g) + then'
    ensures f == g && after == then'
  {
    RoundTrip(2, f, f, after);
    RoundTrip(2, g, f, then');
    assert (Encoded(2, f) + after)[|Encoded(2, f)|..] == after && (Encoded(2, g) + then')[|Encoded(2, g)|..] == then';
  }

  /** What decoding accepts always fits the types it fills, and each field lies inside the input. */
  lemma DecodedFits(before: Fields, data: seq<Byte>)
    requires before.Fits()
    ensures Decode(before, data).fields.Fits()
    ensures Decode(before, data).ok ==>
              var f := Decode(before, data).fields;
              |f.content| + |f.etag| + (if data[0] < 2 then 0 else |f.urlHash|) + 8 < |data|
  {
    EightBytes();
    if data != [] && ParsePrefixed(data[1..]).Some? {
      PrefixedIsInside(data[1..]);
      var rest := ParsePrefixed(data[1..]).value.rest;
      if |rest| >= 8 {
        FromBigEndianFits(rest[..8]);
        var tags := rest[8..];
        if ParsePrefixed(tags).Some? {
          PrefixedIsInside(tags);
          if ParsePrefixed(ParsePrefixed(tags).value.rest).Some? { PrefixedIsInside(ParsePrefixed(tags).value.rest); }
        }
      }
    }
  }

  lemma {:induction false} FromBigEndianFits(bytes: seq<Byte>)
    ensures FromBigEndian(bytes) < Capacity(|bytes|)
  {
    if bytes != [] { FromBigEndianFits(bytes[..|bytes| - 1]); }
  }

  /** Encoding undoes decoding only for shortest varints: a longer zero length is accepted as well. */
  lemma LongVarintIsAccepted()
    ensures ParseUvarint([128, 0], 0) == Some(Parsed(0, [])) && Uvarint(0) == [0]
  {
    assert ParseUvarint([0], 1) == Some(Parsed(0, []));
    assert [128, 0][1..] == [0];
  }

  // ----- the encoder and the decoder -----

  method WriteUvarint(buffer: seq<Byte>, value: nat) returns (out: seq<Byte>)
    ensures out == buffer + Uvarint(value)
  {
    out := buffer;
    var v := value;
    while v >= 128
      invariant out + Uvarint(v) == buffer + Uvarint(value)
    {
      assert out + Uvarint(v) == out + [v % 128 + 128] + Uvarint(v / 128);
      out := out + [v % 128 + 128];
      v := v / 128;
    }
    out := out + [v];
  }

  method WriteInt64(buffer: seq<Byte>, value: int) returns (out: seq<Byte>)
    requires -TWO_63 <= value < TWO_63
    ensures out == buffer + BigEndian(ToUnsigned(value), 8)
  {
    var u: nat := if value < 0 then value + TWO_64 else value;
    var bytes: seq<Byte> := [];
    for i := 0 to 8
      invariant BigEndian(ToUnsigned(value), 8) == BigEndian(u, 8 - i) + bytes
    {
      assert BigEndian(u, 8 - i) == BigEndian(u / 256, 8 - i - 1) + [u % 256];
      bytes := [u % 256] + bytes;
      u := u / 256;
    }
    out := buffer + bytes;
  }

  /** What the whole varint is, when its first `i` bytes gave `x`. */
  function Joined(x: nat, scale: nat, tail: Option<Parsed<nat>>): Option<Parsed<nat>> {
    if tail.None? then None else Some(Parsed(x + scale * tail.value.value, tail.value.rest))
  }

  /** Reading one more byte. */
  lemma JoinOne(x: nat, scale: nat, data: seq<Byte>, i: nat)
    requires data != [] && i < 10
    ensures data[0] >= 128 ==>
              Joined(x, scale, ParseUvarint(data, i)) == Joined(x + scale * (data[0] - 128), scale * 128, ParseUvarint(data[1..], i + 1))
    ensures data[0] < 128 ==>
              Joined(x, scale, ParseUvarint(data, i))
              == if i == 9 && data[0] > 1 then None else Some(Parsed(x + scale * data[0], data[1..]))
  {
    var tail := ParseUvarint(data[1..], i + 1);
    if data[0] >= 128 && tail.Some? {
      var b, y := data[0] - 128, tail.value.value;
      assert scale * (b + 128 * y) == scale * b + scale * 128 * y;
    }
  }

  /** A position in the input. */
  class Cursor {
    const data: seq<Byte>
    var at: nat

    constructor (data: seq<Byte>)
      ensures this.data == data && Valid() && Rest() == data
    {
      this.data := data;
      at := 0;
    }

    ghost predicate Valid()
      reads this
    {
      at <= |data|
    }

    function Rest(): seq<Byte>
      requires Valid()
      reads this
    {
      data[at..]
    }

    method ReadByte() returns (b: Option<Byte>)
      requires Valid()
      modifies this
      ensures Valid()
      ensures if old(Rest()) == [] then b.None? else b == Some(old(Rest())[0]) && Rest() == old(Rest())[1..]
    {
      if at == |data| {
        return None;
      }
      b := Some(data[at]);
      at := at + 1;
    }

    method ReadUvarint() returns (value: Option<nat>)
      requires Valid()
      modifies this
      ensures Valid()
      ensures var p := ParseUvarint(old(Rest()), 0);
              if p.None? then value.None? else value == Some(p.value.value) && Rest() == p.value.rest
    {
      var x: nat, scale: nat := 0, 1;
      ghost var whole := ParseUvarint(Rest(), 0);
      for i := 0 to 10
        invariant Valid()
        invariant whole == Joined(x, scale, ParseUvarint(Rest(), i))
      {
        ghost var rest := Rest();
        var next := ReadByte();
        if next.None? {
          return None;
        }
        var b: nat := next.value;
        JoinOne(x, scale, rest, i);
        if b < 128 {
          if i == 9 && b > 1 {
            return None;
          }
          return Some(x + scale * b);
        }
        x, scale := x + scale * (b - 128), scale * 128;
      }
      return None;
    }

    method ReadPrefixed() returns (bytes: Option<seq<Byte>>)
      requires Valid()
      modifies this
      ensures Valid()
      ensures var p := ParsePrefixed(old(Rest()));
              if p.None? then bytes.None? else bytes == Some(p.value.value) && Rest() == p.value.rest
    {
      var length := ReadUvarint();
      if length.None? || length.value > |data| - at {
        return None;
      }
      bytes := Some(data[at..at + length.value]);
      assert Rest()[..length.value] == data[at..at + length.value] && Rest()[length.value..] == data[at + length.value..];
      at := at + length.value;
    }

    method ReadInt64() returns (value: Option<int>)
      requires Valid()
      modifies this
      ensures Valid()
      ensures var p := ParseInt64(old(Rest()));
              if p.None? then value.None? else value == Some(p.value.value) && Rest() == p.value.rest
    {
      if |data| - at < 8 {
        return None;
      }
      var u: nat := 0;
      ghost var word := data[at..at + 8];
      for i := 0 to 8
        invariant u == FromBigEndian(word[..i])
      {
        assert word[..i + 1][..i] == word[..i];
        u := 256 * u + data[at + i];
      }
      assert word[..8] == word && Rest()[..8] == word && Rest()[8..] == data[at + 8..];
      at := at + 8;
      value := Some(if u < TWO_63 then u else u - TWO_64);
    }
  }

  class Saved {
    var content: seq<Byte>
    var updated: int
    var etag: seq<Byte>
    var urlHash: seq<Byte>

    constructor (f: Fields)
      ensures Value() == f
    {
      content, updated, etag, urlHash := f.content, f.updated, f.etag, f.urlHash;
    }

    function Value(): Fields
      reads this
    {
      Fields(content, updated, etag, urlHash)
    }

    method MarshalBinary() returns (data: seq<Byte>)
      requires Value().Fits()
      ensures data == Encoded(2, Value())
    {
      data := [2];
      data := WriteUvarint(data, |content|);
      data := data + content;
      data := WriteInt64(data, updated);
      data := WriteUvarint(data, |etag|);
      data := data + etag;
      data := WriteUvarint(data, |urlHash|);
      data := data + urlHash;
    }

    /** Fields read before an error stay filled. */
    method UnmarshalBinary(data: seq<Byte>) returns (ok: bool)
      modifies this
      ensures Decoded(Value(), ok) == Decode(old(Value()), data)
    {
      if |data| == 0 {
        return false;
      }
      var reader := new Cursor(data[1..]);
      var field := reader.ReadPrefixed();
      if field.None? {
        return false;
      }
      content := field.value;
      ok := UnmarshalTime(reader, data[0]);
    }

    method UnmarshalTime(reader: Cursor, version: Byte) returns (ok: bool)
      requires reader.Valid()
      modifies this, reader
      ensures Decoded(Value(), ok) == DecodeTime(old(Value()), version, old(reader.Rest()))
    {
      var time := reader.ReadInt64();
      if time.None? {
        return false;
      }
      updated := time.value;
      ok := UnmarshalTags(reader, version);
    }

    method UnmarshalTags(reader: Cursor, version: Byte) returns (ok: bool)
      requires reader.Valid()
      modifies this, reader
      ensures Decoded(Value(), ok) == DecodeTags(old(Value()), version, old(reader.Rest()))
    {
      var field := reader.ReadPrefixed();
      if field.None? {
        return false;
      }
      etag := field.value;
      if version < 2 {
        return true;
      }
      field := reader.ReadPrefixed();
      if field.None? {
        return false;
      }
      urlHash := field.value;
      return true;
    }
  }
}
