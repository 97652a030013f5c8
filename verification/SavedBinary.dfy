/** The saved binary format: a version byte, then length-prefixed content, an update time, a
    length-prefixed etag and, from version 2 on, a length-prefixed hash. */
module SavedBinaryCodec {
  import opened Basics

  type Byte = b: nat | b < 256
  type Bytes = seq<Byte>

  const VERSION: Byte := 2
  const MAX_VARINT_LEN := 10
  const UINT64_LIMIT := 0x1_0000_0000_0000_0000
  const INT64_LIMIT := 0x8000_0000_0000_0000

  /** A value read from the front of the input, and what is left of the input. */
  datatype Read<T> = Got(value: T, rest: Bytes) | Bad

  // ---- unsigned varints ----

  function EncodeUvarint(n: nat): Bytes {
    if n < 128 then [n] else [128 + n % 128] + EncodeUvarint(n / 128)
  }

  /** binary.ReadUvarint from its i-th byte on: at most ten bytes, and a value below 2^64. */
  function DecodeUvarintFrom(input: Bytes, i: nat): Read<nat>
    decreases |input|
  {
    if i >= MAX_VARINT_LEN || input == [] then Bad
    else if input[0] < 128 then
      if i == MAX_VARINT_LEN - 1 && input[0] > 1 then Bad else Got(input[0], input[1..])
    else
      var r := DecodeUvarintFrom(input[1..], i + 1);
      if r.Bad? then Bad else Got(input[0] % 128 + 128 * r.value, r.rest)
  }

  function DecodeUvarint(input: Bytes): Read<nat> {
    DecodeUvarintFrom(input, 0)
  }

  /** The end of the input from some point on. */
  predicate IsSuffix(rest: Bytes, input: Bytes) {
    |rest| <= |input| && rest == input[|input| - |rest|..]
  }

  /** What the bytes from the i-th on can hold. */
  function Limit(i: nat): nat
    decreases MAX_VARINT_LEN - i
  {
    if i >= MAX_VARINT_LEN then 0 else if i == MAX_VARINT_LEN - 1 then 2 else 128 * Limit(i + 1)
  }

  lemma {:induction false} UvarintFrom(n: nat, i: nat, rest: Bytes)
    requires i < MAX_VARINT_LEN && n < Limit(i)
    ensures DecodeUvarintFrom(EncodeUvarint(n) + rest, i) == Got(n, rest)
    decreases n
  {
    var input := EncodeUvarint(n) + rest;
    if n < 128 {
      assert input[1..] == rest;
    } else {
      assert input[1..] == EncodeUvarint(n / 128) + rest;
      UvarintFrom(n / 128, i + 1, rest);
    }
  }

  /** Decoding inverts encoding, for every 64-bit value and whatever follows. */
  lemma UvarintRoundTrip(n: nat, rest: Bytes)
    requires n < UINT64_LIMIT
    ensures DecodeUvarint(EncodeUvarint(n) + rest) == Got(n, rest)
  {
    assert Limit(0) == UINT64_LIMIT;
    UvarintFrom(n, 0, rest);
  }

  lemma {:induction false} LimitIsPositive(i: nat)
    requires i < MAX_VARINT_LEN
    ensures Limit(i) > 0
    decreases MAX_VARINT_LEN - i
  {
    if i < MAX_VARINT_LEN - 1 {
      LimitIsPositive(i + 1);
    }
  }

  lemma {:induction false} DecodedIsBelow(input: Bytes, i: nat)
    ensures DecodeUvarintFrom(input, i).Got? ==> DecodeUvarintFrom(input, i).value < Limit(i)
    decreases |input|
  {
    if i < MAX_VARINT_LEN && input != [] {
      DecodedIsBelow(input[1..], i + 1);
      if i < MAX_VARINT_LEN - 1 {
        LimitIsPositive(i + 1);
      }
    }
  }

  /** Decoding takes at least one byte from the front, and never more than there are. */
  lemma {:induction false} UvarintLeavesSuffix(input: Bytes, i: nat)
    ensures var r := DecodeUvarintFrom(input, i); r.Got? ==> IsSuffix(r.rest, input) && |r.rest| < |input|
    decreases |input|
  {
    if input != [] {
      UvarintLeavesSuffix(input[1..], i + 1);
    }
  }

  /** No input decodes to a value beyond 64 bits. */
  lemma UvarintIsUint64(input: Bytes)
    ensures DecodeUvarint(input).Got? ==> DecodeUvarint(input).value < UINT64_LIMIT
  {
    assert Limit(0) == UINT64_LIMIT;
    DecodedIsBelow(input, 0);
  }

  // ---- signed 64-bit big-endian integers ----

  predicate IsInt64(t: int) {
    -INT64_LIMIT <= t < INT64_LIMIT
  }

  /** The last k bytes of a number, most significant first. */
  function BigEndian(u: nat, k: nat): (r: Bytes)
    ensures |r| == k
  {
    if k == 0 then [] else BigEndian(u / 256, k - 1) + [u % 256]
  }

  function FromBigEndian(b: Bytes): nat {
    if b == [] then 0 else FromBigEndian(b[..|b| - 1]) * 256 + b[|b| - 1]
  }

  function Pow256(k: nat): nat {
    if k == 0 then 1 else 256 * Pow256(k - 1)
  }

  lemma {:induction false} BigEndianRoundTrip(u: nat, k: nat)
    requires u < Pow256(k)
    ensures FromBigEndian(BigEndian(u, k)) == u
  {
    if k > 0 {
      BigEndianRoundTrip(u / 256, k - 1);
      assert BigEndian(u, k)[..k - 1] == BigEndian(u / 256, k - 1);
    }
  }

  lemma PowEight()
    ensures Pow256(8) == UINT64_LIMIT
  {
    assert Pow256(2) == 65536;
    assert Pow256(4) == 4294967296;
    assert Pow256(6) == 281474976710656;
  }

  function EncodeInt64(t: int): Bytes
    requires IsInt64(t)
  {
    BigEndian(if t < 0 then t + UINT64_LIMIT else t, 8)
  }

  function DecodeInt64(input: Bytes): Read<int> {
    if |input| < 8 then Bad
    else
      var u := FromBigEndian(input[..8]);
      Got(if u < INT64_LIMIT then u else u - UINT64_LIMIT, input[8..])
  }

  lemma Int64RoundTrip(t: int, rest: Bytes)
    requires IsInt64(t)
    ensures DecodeInt64(EncodeInt64(t) + rest) == Got(t, rest)
  {
    var u := if t < 0 then t + UINT64_LIMIT else t;
    PowEight();
    BigEndianRoundTrip(u, 8);
    assert (EncodeInt64(t) + rest)[..8] == EncodeInt64(t);
    assert (EncodeInt64(t) + rest)[8..] == rest;
  }

  // ---- length-prefixed bytes ----

  function EncodeBytes(b: Bytes): Bytes {
    EncodeUvarint(|b|) + b
  }

  /** A length, which must not be more than what is left, and that many bytes. */
  function DecodeBytes(input: Bytes): Read<Bytes> {
    var length := DecodeUvarint(input);
    if length.Bad? || length.value > |length.rest| then Bad
    else Got(length.rest[..length.value], length.rest[length.value..])
  }

  lemma BytesRoundTrip(b: Bytes, rest: Bytes)
    requires |b| < UINT64_LIMIT
    ensures DecodeBytes(EncodeBytes(b) + rest) == Got(b, rest)
  {
    UvarintRoundTrip(|b|, b + rest);
    assert EncodeBytes(b) + rest == EncodeUvarint(|b|) + (b + rest);
    assert (b + rest)[..|b|] == b && (b + rest)[|b|..] == rest;
  }

  // ---- the format ----

  datatype Instant = Instant(seconds: int, nanos: nat)

  datatype Value = Value(content: Bytes, lastUpdated: Instant, lastEtag: Bytes, urlHash: Bytes)

  /** What the source's types hold: 64-bit seconds and lengths. */
  predicate Representable(v: Value) {
    && IsInt64(v.lastUpdated.seconds)
    && |v.content| < UINT64_LIMIT && |v.lastEtag| < UINT64_LIMIT && |v.urlHash| < UINT64_LIMIT
  }

  /** The fields both versions have. */
  function EncodeFields(v: Value): Bytes
    requires Representable(v)
  {
    EncodeBytes(v.content) + EncodeInt64(v.lastUpdated.seconds) + EncodeBytes(v.lastEtag)
  }

  function Encode(v: Value): Bytes
    requires Representable(v)
  {
    [VERSION] + EncodeFields(v) + EncodeBytes(v.urlHash)
  }

  // The steps of decoding, each on the whole input.

  function ReadContent(data: Bytes): Read<Bytes> {
    if data == [] then Bad else DecodeBytes(data[1..])
  }

  function ReadTime(data: Bytes): Read<int> {
    var c := ReadContent(data);
    if c.Bad? then Bad else DecodeInt64(c.rest)
  }

  function ReadEtag(data: Bytes): Read<Bytes> {
    var t := ReadTime(data);
    if t.Bad? then Bad else DecodeBytes(t.rest)
  }

  predicate HasHash(data: Bytes) {
    data != [] && data[0] >= 2
  }

  function ReadHash(data: Bytes): Read<Bytes> {
    var e := ReadEtag(data);
    if e.Bad? || !HasHash(data) then Bad else DecodeBytes(e.rest)
  }

  /** The value after decoding over an older one. A field that cannot be read stays as it was, and
      so does the hash of a format before version 2. */
  function Decoded(v: Value, data: Bytes): Value {
    var c, t, e, h := ReadContent(data), ReadTime(data), ReadEtag(data), ReadHash(data);
    Value(if c.Got? then c.value else v.content,
          if t.Got? then Instant(t.value, 0) else v.lastUpdated,
          if e.Got? then e.value else v.lastEtag,
          if h.Got? then h.value else v.urlHash)
  }

  predicate Decodes(data: Bytes) {
    ReadEtag(data).Got? && (HasHash(data) ==> ReadHash(data).Got?)
  }

  lemma FieldsRoundTrip(v: Value, version: Byte, rest: Bytes)
    requires Representable(v)
    ensures var data := [version] + EncodeFields(v) + rest;
            && ReadContent(data).Got? && ReadContent(data).value == v.content
            && ReadTime(data).Got? && ReadTime(data).value == v.lastUpdated.seconds
            && ReadEtag(data) == Got(v.lastEtag, rest)
  {
    var data := [version] + EncodeFields(v) + rest;
    var afterTime := EncodeBytes(v.lastEtag) + rest;
    var afterContent := EncodeInt64(v.lastUpdated.seconds) + afterTime;
    assert data[1..] == EncodeBytes(v.content) + afterContent;
    BytesRoundTrip(v.content, afterContent);
    Int64RoundTrip(v.lastUpdated.seconds, afterTime);
    BytesRoundTrip(v.lastEtag, rest);
  }

  /** Decoding inverts encoding, whatever was there before, exactly for times of whole seconds. */
  lemma RoundTrip(v: Value, before: Value)
    requires Representable(v)
    ensures Decodes(Encode(v))
    ensures Decoded(before, Encode(v)) == v <==> v.lastUpdated.nanos == 0
    ensures Decoded(before, Encode(v)) == v.(lastUpdated := Instant(v.lastUpdated.seconds, 0))
  {
    FieldsRoundTrip(v, VERSION, EncodeBytes(v.urlHash));
    BytesRoundTrip(v.urlHash, []);
    assert EncodeBytes(v.urlHash) + [] == EncodeBytes(v.urlHash);
  }

  /** A format before version 2, with anything after its etag, decodes and leaves the hash alone. */
  lemma OldVersionKeepsHash(v: Value, version: Byte, rest: Bytes, before: Value)
    requires Representable(v) && version < 2
    ensures var data := [version] + EncodeFields(v) + rest;
            && Decodes(data)
            && Decoded(before, data) == Value(v.content, Instant(v.lastUpdated.seconds, 0), v.lastEtag, before.urlHash)
  {
    FieldsRoundTrip(v, version, rest);
  }

  lemma BytesLeaveSuffix(input: Bytes)
    ensures DecodeBytes(input).Got? ==> IsSuffix(DecodeBytes(input).rest, input)
  {
    UvarintLeavesSuffix(input, 0);
    var length := DecodeUvarint(input);
    if DecodeBytes(input).Got? {
      SuffixOfSuffix(length.rest[length.value..], length.rest, input);
    }
  }

  lemma SuffixOfSuffix(a: Bytes, b: Bytes, c: Bytes)
    requires IsSuffix(a, b) && IsSuffix(b, c)
    ensures IsSuffix(a, c)
  {
    assert c[|c| - |b|..][|b| - |a|..] == c[|c| - |a|..];
  }

  lemma ContentLeavesSuffix(data: Bytes)
    ensures ReadContent(data).Got? ==> IsSuffix(ReadContent(data).rest, data)
  {
    if ReadContent(data).Got? {
      BytesLeaveSuffix(data[1..]);
      SuffixOfSuffix(ReadContent(data).rest, data[1..], data);
    }
  }

  lemma TimeLeavesSuffix(data: Bytes)
    ensures ReadTime(data).Got? ==> IsSuffix(ReadTime(data).rest, data)
  {
    if ReadTime(data).Got? {
      ContentLeavesSuffix(data);
      SuffixOfSuffix(ReadTime(data).rest, ReadContent(data).rest, data);
    }
  }

  lemma EtagLeavesSuffix(data: Bytes)
    ensures ReadEtag(data).Got? ==> IsSuffix(ReadEtag(data).rest, data)
  {
    if ReadEtag(data).Got? {
      TimeLeavesSuffix(data);
      BytesLeaveSuffix(ReadTime(data).rest);
      SuffixOfSuffix(ReadEtag(data).rest, ReadTime(data).rest, data);
    }
  }

  /** Decoding never goes beyond the input: what it leaves is an end of it. */
  lemma DecodingLeavesSuffix(data: Bytes)
    ensures ReadEtag(data).Got? ==> IsSuffix(ReadEtag(data).rest, data)
    ensures ReadHash(data).Got? ==> IsSuffix(ReadHash(data).rest, data)
  {
    EtagLeavesSuffix(data);
    if ReadHash(data).Got? {
      BytesLeaveSuffix(ReadEtag(data).rest);
      SuffixOfSuffix(ReadHash(data).rest, ReadEtag(data).rest, data);
    }
  }

  /** Two values with one encoding are the same but for fractions of a second. */
  lemma EncodingIsInjective(v: Value, w: Value)
    requires Representable(v) && Representable(w) && Encode(v) == Encode(w)
    ensures v.(lastUpdated := Instant(v.lastUpdated.seconds, 0)) == w.(lastUpdated := Instant(w.lastUpdated.seconds, 0))
  {
    RoundTrip(v, v);
    RoundTrip(w, v);
  }

  // ---- the objects ----

  /** A value with more above it, at a scale. */
  function Shifted(value: nat, scale: nat, r: Read<nat>): Read<nat> {
    if r.Bad? then Bad else Got(value + scale * r.value, r.rest)
  }

  lemma ShiftStep(value: nat, scale: nat, b: nat, r: Read<nat>)
    ensures r.Got? ==>
              Shifted(value, scale, Got(b % 128 + 128 * r.value, r.rest)) ==
              Shifted(value + scale * (b % 128), scale * 128, r)
  {
    if r.Got? {
      assert scale * (b % 128 + 128 * r.value) == scale * (b % 128) + scale * 128 * r.value;
    }
  }

  /** bytes.Reader: a cursor over the input. */
  class Reader {
    const data: Bytes
    var at: nat

    ghost predicate Valid()
      reads this
    {
      at <= |data|
    }

    function Left(): Bytes
      requires Valid()
      reads this
    {
      data[at..]
    }

    constructor (data: Bytes)
      ensures this.data == data && at == 0 && Valid()
    {
      this.data, at := data, 0;
    }

    method ReadByte() returns (b: Option<Byte>)
      requires Valid()
      modifies this
      ensures Valid()
      ensures if old(Left()) == [] then b == None && at == old(at) else b == Some(old(Left())[0]) && at == old(at) + 1
    {
      if at == |data| {
        return None;
      }
      at := at + 1;
      return Some(data[at - 1]);
    }

    /** io.ReadFull after the length check. */
    method ReadFull(n: nat) returns (b: Bytes)
      requires Valid() && n <= |Left()|
      modifies this
      ensures Valid() && b == old(Left())[..n] && at == old(at) + n
    {
      b := data[at..at + n];
      at := at + n;
    }

    /** binary.ReadUvarint */
    method ReadUvarint() returns (r: Option<nat>)
      requires Valid()
      modifies this
      ensures Valid()
      ensures match DecodeUvarint(old(Left()))
              case Got(value, rest) => r == Some(value) && Left() == rest
              case Bad => r == None
    {
      var value: nat, scale: nat, i: nat := 0, 1, 0;
      ghost var input := Left();
      while i < MAX_VARINT_LEN
        invariant i <= MAX_VARINT_LEN && Valid()
        invariant DecodeUvarint(input) == Shifted(value, scale, DecodeUvarintFrom(Left(), i))
      {
        ghost var left := Left();
        var b := ReadByte();
        if b.None? {
          return None;
        }
        assert Left() == left[1..];
        if b.value < 128 {
          if i == MAX_VARINT_LEN - 1 && b.value > 1 {
            return None;
          }
          return Some(value + scale * b.value);
        }
        ShiftStep(value, scale, b.value, DecodeUvarintFrom(left[1..], i + 1));
        value, scale, i := value + scale * (b.value % 128), scale * 128, i + 1;
      }
      return None;
    }

    method ReadInt64() returns (r: Option<int>)
      requires Valid()
      modifies this
      ensures Valid()
      ensures match DecodeInt64(old(Left()))
              case Got(value, rest) => r == Some(value) && Left() == rest
              case Bad => r == None
    {
      if |data| - at < 8 {
        return None;
      }
      var b := ReadFull(8);
      var u := FromBigEndian(b);
      return Some(if u < INT64_LIMIT then u else u - UINT64_LIMIT);
    }

    method ReadBytes() returns (r: Option<Bytes>)
      requires Valid()
      modifies this
      ensures Valid()
      ensures match DecodeBytes(old(Left()))
              case Got(value, rest) => r == Some(value) && Left() == rest
              case Bad => r == None
    {
      var length := ReadUvarint();
      if length.None? || length.value > |data| - at {
        return None;
      }
      var b := ReadFull(length.value);
      return Some(b);
    }
  }

  class SavedBinary {
    var content: Bytes
    var lastUpdated: Instant
    var lastEtag: Bytes
    var urlHash: Bytes

    function Current(): Value
      reads this
    {
      Value(content, lastUpdated, lastEtag, urlHash)
    }

    constructor (v: Value)
      ensures Current() == v
    {
      content, lastUpdated, lastEtag, urlHash := v.content, v.lastUpdated, v.lastEtag, v.urlHash;
    }

    /** varbin.WriteUvarint */
    static method WriteUvarint(buffer: Bytes, n: nat) returns (r: Bytes)
      ensures r == buffer + EncodeUvarint(n)
    {
      r := buffer;
      var left := n;
      while left >= 128
        invariant r + EncodeUvarint(left) == buffer + EncodeUvarint(n)
      {
        assert EncodeUvarint(left) == [128 + left % 128] + EncodeUvarint(left / 128);
        r := r + [128 + left % 128];
        left := left / 128;
      }
      r := r + [left];
    }

    /** MarshalBinary */
    method Marshal() returns (buffer: Bytes)
      requires Representable(Current())
      ensures buffer == Encode(Current())
    {
      buffer := [VERSION];
      buffer := WriteUvarint(buffer, |content|);
      buffer := buffer + content;
      buffer := buffer + EncodeInt64(lastUpdated.seconds);
      buffer := WriteUvarint(buffer, |lastEtag|);
      buffer := buffer + lastEtag;
      buffer := WriteUvarint(buffer, |urlHash|);
      buffer := buffer + urlHash;
      assert buffer == [VERSION] + (EncodeBytes(content) + EncodeInt64(lastUpdated.seconds) + EncodeBytes(lastEtag))
                       + EncodeBytes(urlHash);
    }

    /** UnmarshalBinary up to the update time. */
    method ReadFields(reader: Reader, ghost data: Bytes) returns (ok: bool)
      requires reader.Valid() && data != [] && reader.Left() == data[1..]
      modifies `content, `lastUpdated, reader
      ensures ok <==> ReadTime(data).Got?
      ensures ok ==> reader.Valid() && reader.Left() == ReadTime(data).rest
      ensures content == if ReadContent(data).Got? then ReadContent(data).value else old(content)
      ensures lastUpdated == if ReadTime(data).Got? then Instant(ReadTime(data).value, 0) else old(lastUpdated)
    {
      var c := reader.ReadBytes();
      if c.None? {
        return false;
      }
      content := c.value;
      var t := reader.ReadInt64();
      if t.None? {
        return false;
      }
      lastUpdated := Instant(t.value, 0);
      return true;
    }

    /** UnmarshalBinary from the etag on. */
    method ReadRest(reader: Reader, version: Byte, ghost data: Bytes) returns (ok: bool)
      requires data != [] && version == data[0] && ReadTime(data).Got? && reader.Valid() &&
               reader.Left() == ReadTime(data).rest
      modifies `lastEtag, `urlHash, reader
      ensures ok <==> Decodes(data)
      ensures lastEtag == if ReadEtag(data).Got? then ReadEtag(data).value else old(lastEtag)
      ensures urlHash == if ReadHash(data).Got? then ReadHash(data).value else old(urlHash)
    {
      var e := reader.ReadBytes();
      if e.None? {
        return false;
      }
      lastEtag := e.value;
      if version < 2 {
        return true;
      }
      var h := reader.ReadBytes();
      if h.None? {
        return false;
      }
      urlHash := h.value;
      return true;
    }

    /** UnmarshalBinary */
    method Unmarshal(data: Bytes) returns (ok: bool)
      modifies this
      ensures ok <==> Decodes(data)
      ensures Current() == Decoded(old(Current()), data)
    {
      var reader := new Reader(data);
      var version := reader.ReadByte();
      if version.None? {
        return false;
      }
      ok := ReadFields(reader, data);
      if ok {
        ok := ReadRest(reader, version.value, data);
      }
    }
  }
}
