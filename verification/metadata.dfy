/**
 The trailer that carries per-frame metadata behind an encoded frame
 (crates/reactor-webrtc/src/metadata.rs): a protobuf message, its length in
 four little-endian bytes, and the magic "RXMT".

 The message is read as the protobuf encoding specification lays it down
 (sections "Base 128 Varints" and "Message Structure") and as strictly as the
 prost decoder the program uses.
 */
module Metadata {
  import opened Wrappers

  const MAGIC: seq<Octet> := [0x52, 0x58, 0x4D, 0x54]
  const FRAMING := 8
  const TWO_32: nat := 0x1_0000_0000
  const TWO_64: nat := 0x1_0000_0000_0000_0000

  type U64 = x: nat | x < TWO_64

  datatype FrameMetadata = FrameMetadata(frameId: U64, captureTimeUs: U64, userData: seq<Octet>)

  const UNSET := FrameMetadata(0, 0, [])

  // ---------------------------------------------------------------------
  // Varints
  // ---------------------------------------------------------------------

  /** A value read off the front, and the bytes behind it. */
  datatype Read = Read(value: nat, rest: seq<Octet>)

  function Varint(n: nat): (s: seq<Octet>)
    ensures |s| >= 1
  {
    if n < 128 then [n] else [n % 128 + 128] + Varint(n / 128)
  }

  /** Reads on with `i` bytes of the varint behind it: ten at most, and the tenth holds one bit. */
  function ReadVarint(s: seq<Octet>, i: nat := 0): (r: Option<Read>)
    ensures r.Some? ==> |r.value.rest| < |s|
  {
    if s == [] || i >= 10 then None
    else if s[0] < 128 then
      if i == 9 && s[0] >= 2 then None else Some(Read(s[0], s[1..]))
    else
      match ReadVarint(s[1..], i + 1)
      case None => None
      case Some(r) => Some(Read(s[0] - 128 + 128 * r.value, r.rest))
  }

  /** What the bytes from the `i`th on can hold. */
  function Limit(i: nat): nat
    requires i <= 9
    decreases 9 - i
  {
    if i == 9 then 2 else 128 * Limit(i + 1)
  }

  lemma {:induction false} LimitIsPositive(i: nat)
    requires i <= 9
    ensures Limit(i) >= 2
    decreases 9 - i
  {
    if i < 9 {
      LimitIsPositive(i + 1);
    }
  }

  lemma LimitOfAll()
    ensures Limit(0) == TWO_64
  {
    assert Limit(6) == 128 * 128 * 128 * 2;
    assert Limit(3) == 128 * 128 * 128 * Limit(6);
    assert Limit(0) == 128 * 128 * 128 * Limit(3);
  }

  lemma {:induction false} VarintRoundTrip(n: nat, i: nat, rest: seq<Octet>)
    requires i <= 9 && n < Limit(i)
    ensures ReadVarint(Varint(n) + rest, i) == Some(Read(n, rest))
    decreases n
  {
    var s := Varint(n) + rest;
    if n < 128 {
      assert s[1..] == rest;
    } else {
      assert s[1..] == Varint(n / 128) + rest;
      VarintRoundTrip(n / 128, i + 1, rest);
    }
  }

  /** Nothing longer than sixty-four bits is ever read. */
  lemma {:induction false} ReadVarintFits(s: seq<Octet>, i: nat)
    requires i <= 9 && ReadVarint(s, i).Some?
    ensures ReadVarint(s, i).value.value < Limit(i)
    decreases |s|
  {
    if s[0] >= 128 {
      assert ReadVarint(s[1..], i + 1).Some?;
      ReadVarintFits(s[1..], i + 1);
    } else if i < 9 {
      LimitIsPositive(i + 1);
    }
  }

  // ---------------------------------------------------------------------
  // Fields
  // ---------------------------------------------------------------------

  datatype Key = Key(tag: nat, wire: nat, rest: seq<Octet>)

  const VARINT := 0
  const SIXTY_FOUR_BIT := 1
  const LENGTH_DELIMITED := 2
  const START_GROUP := 3
  const END_GROUP := 4
  const THIRTY_TWO_BIT := 5

  /** How deep groups may nest. */
  const RECURSION_LIMIT := 100

  function ReadKey(s: seq<Octet>): (k: Option<Key>)
    ensures k.Some? ==> |k.value.rest| < |s|
  {
    match ReadVarint(s)
    case None => None
    case Some(r) =>
      if r.value >= TWO_32 || r.value % 8 > THIRTY_TWO_BIT || r.value / 8 < 1 then None
      else Some(Key(r.value / 8, r.value % 8, r.rest))
  }

  function Drop(s: seq<Octet>, n: nat): (rest: Option<seq<Octet>>)
    ensures rest.Some? ==> |rest.value| <= |s|
  {
    if n > |s| then None else Some(s[n..])
  }

  /** The bytes behind a field whose tag means nothing here. */
  function SkipField(wire: nat, tag: nat, s: seq<Octet>, depth: nat): (rest: Option<seq<Octet>>)
    ensures rest.Some? ==> |rest.value| <= |s|
    decreases |s|, 1
  {
    if depth == 0 then None
    else if wire == VARINT then
      match ReadVarint(s) case None => None case Some(r) => Some(r.rest)
    else if wire == SIXTY_FOUR_BIT then Drop(s, 8)
    else if wire == THIRTY_TWO_BIT then Drop(s, 4)
    else if wire == LENGTH_DELIMITED then
      match ReadVarint(s) case None => None case Some(r) => Drop(r.rest, r.value)
    else if wire == START_GROUP then SkipGroup(tag, s, depth)
    else None
  }

  function SkipGroup(tag: nat, s: seq<Octet>, depth: nat): (rest: Option<seq<Octet>>)
    requires depth > 0
    ensures rest.Some? ==> |rest.value| <= |s|
    decreases |s|, 0
  {
    match ReadKey(s)
    case None => None
    case Some(key) =>
      if key.wire == END_GROUP then if key.tag == tag then Some(key.rest) else None
      else
        match SkipField(key.wire, key.tag, key.rest, depth - 1)
        case None => None
        case Some(rest) => SkipGroup(tag, rest, depth)
  }

  /** One field merged into `m`; a field seen again replaces what it held. */
  function MergeField(m: FrameMetadata, key: Key): (r: Option<(FrameMetadata, seq<Octet>)>)
    ensures r.Some? ==> |r.value.1| <= |key.rest|
  {
    if key.tag == 1 || key.tag == 2 then
      if key.wire != VARINT then None
      else
        match ReadVarint(key.rest)
        case None => None
        case Some(r) =>
          ReadVarintFits(key.rest, 0);
          LimitOfAll();
          if key.tag == 1 then Some((m.(frameId := r.value), r.rest))
          else Some((m.(captureTimeUs := r.value), r.rest))
    else if key.tag == 3 then
      if key.wire != LENGTH_DELIMITED then None
      else
        match ReadVarint(key.rest)
        case None => None
        case Some(r) =>
          if r.value > |r.rest| then None
          else Some((m.(userData := r.rest[..r.value]), r.rest[r.value..]))
    else
      match SkipField(key.wire, key.tag, key.rest, RECURSION_LIMIT)
      case None => None
      case Some(rest) => Some((m, rest))
  }

  function Merge(m: FrameMetadata, s: seq<Octet>): Option<FrameMetadata>
    decreases |s|
  {
    if s == [] then Some(m)
    else
      match ReadKey(s)
      case None => None
      case Some(key) =>
        match MergeField(m, key)
        case None => None
        case Some(r) => Merge(r.0, r.1)
  }

  function Decode(s: seq<Octet>): Option<FrameMetadata> {
    Merge(UNSET, s)
  }

  /** A field left at its default is not written. */
  function EncodeU64(tag: nat, n: U64): seq<Octet> {
    if n == 0 then [] else Varint(tag * 8 + VARINT) + Varint(n)
  }

  function EncodeBytes(tag: nat, s: seq<Octet>): seq<Octet> {
    if s == [] then [] else Varint(tag * 8 + LENGTH_DELIMITED) + Varint(|s|) + s
  }

  function Encode(m: FrameMetadata): seq<Octet> {
    EncodeU64(1, m.frameId) + EncodeU64(2, m.captureTimeUs) + EncodeBytes(3, m.userData)
  }

  lemma ReadKeyOf(tag: nat, wire: nat, rest: seq<Octet>)
    requires 1 <= tag <= 3 && wire <= THIRTY_TWO_BIT
    ensures ReadKey(Varint(tag * 8 + wire) + rest) == Some(Key(tag, wire, rest))
  {
    assert (Varint(tag * 8 + wire) + rest)[1..] == rest;
  }

  function SetU64(m: FrameMetadata, tag: nat, n: U64): FrameMetadata {
    if tag == 1 then m.(frameId := n) else m.(captureTimeUs := n)
  }

  lemma MergeVarint(m: FrameMetadata, tag: nat, n: U64, rest: seq<Octet>)
    requires tag == 1 || tag == 2
    ensures MergeField(m, Key(tag, VARINT, Varint(n) + rest)) == Some((SetU64(m, tag, n), rest))
  {
    LimitOfAll();
    VarintRoundTrip(n, 0, rest);
    hide Varint, ReadVarint, Limit;
  }

  lemma MergeOne(m: FrameMetadata, s: seq<Octet>)
    requires ReadKey(s).Some? && MergeField(m, ReadKey(s).value).Some?
    ensures var r := MergeField(m, ReadKey(s).value).value; Merge(m, s) == Merge(r.0, r.1)
  {
    hide ReadKey, MergeField;
  }

  lemma Regrouped(a: seq<Octet>, b: seq<Octet>, c: seq<Octet>)
    ensures a + b + c == a + (b + c)
  {
  }

  lemma MergeU64(m: FrameMetadata, tag: nat, n: U64, rest: seq<Octet>)
    requires tag == 1 || tag == 2
    requires if tag == 1 then m.frameId == 0 else m.captureTimeUs == 0
    ensures Merge(m, EncodeU64(tag, n) + rest) == Merge(SetU64(m, tag, n), rest)
  {
    if n == 0 {
      assert EncodeU64(tag, n) + rest == rest;
    } else {
      hide Varint, ReadKey, MergeField, Merge, SetU64;
      Regrouped(Varint(tag * 8 + VARINT), Varint(n), rest);
      var s := Varint(tag * 8 + VARINT) + (Varint(n) + rest);
      ReadKeyOf(tag, VARINT, Varint(n) + rest);
      MergeVarint(m, tag, n, rest);
      MergeOne(m, s);
    }
  }

  lemma MergeBytes(m: FrameMetadata, data: seq<Octet>)
    requires m.userData == [] && |data| < TWO_64
    ensures Merge(m, EncodeBytes(3, data)) == Some(m.(userData := data))
  {
    if data != [] {
      var s := EncodeBytes(3, data);
      assert s == Varint(3 * 8 + LENGTH_DELIMITED) + (Varint(|data|) + data);
      ReadKeyOf(3, LENGTH_DELIMITED, Varint(|data|) + data);
      LimitOfAll();
      VarintRoundTrip(|data|, 0, data);
      hide Varint, ReadVarint, ReadKey;
      assert data[..|data|] == data;
    }
  }

  /** Every message comes back from its own encoding. */
  lemma MessageRoundTrip(m: FrameMetadata)
    requires |m.userData| < TWO_64
    ensures Decode(Encode(m)) == Some(m)
  {
    var first, second, third := EncodeU64(1, m.frameId), EncodeU64(2, m.captureTimeUs), EncodeBytes(3, m.userData);
    assert Encode(m) == first + (second + third);
    MergeU64(UNSET, 1, m.frameId, second + third);
    MergeU64(UNSET.(frameId := m.frameId), 2, m.captureTimeUs, third);
    MergeBytes(UNSET.(frameId := m.frameId, captureTimeUs := m.captureTimeUs), m.userData);
  }

  // ---------------------------------------------------------------------
  // Bytes behind a readable message are read next
  // ---------------------------------------------------------------------

  lemma {:induction false} ReadVarintStops(s: seq<Octet>, more: seq<Octet>, i: nat)
    requires ReadVarint(s, i).Some?
    ensures ReadVarint(s + more, i) == Some(Read(ReadVarint(s, i).value.value, ReadVarint(s, i).value.rest + more))
  {
    assert (s + more)[1..] == s[1..] + more;
    if s[0] >= 128 {
      ReadVarintStops(s[1..], more, i + 1);
    }
  }

  lemma ReadKeyStops(s: seq<Octet>, more: seq<Octet>)
    requires ReadKey(s).Some?
    ensures ReadKey(s + more) == Some(ReadKey(s).value.(rest := ReadKey(s).value.rest + more))
  {
    ReadVarintStops(s, more, 0);
    hide ReadVarint;
  }

  lemma DropStops(s: seq<Octet>, n: nat, more: seq<Octet>)
    requires Drop(s, n).Some?
    ensures Drop(s + more, n) == Some(Drop(s, n).value + more)
  {
    assert (s + more)[n..] == s[n..] + more;
  }

  lemma {:induction false} SkipFieldStops(wire: nat, tag: nat, s: seq<Octet>, depth: nat, more: seq<Octet>)
    requires SkipField(wire, tag, s, depth).Some?
    ensures SkipField(wire, tag, s + more, depth) == Some(SkipField(wire, tag, s, depth).value + more)
    decreases |s|, 1
  {
    if wire == VARINT {
      ReadVarintStops(s, more, 0);
    } else if wire == SIXTY_FOUR_BIT {
      DropStops(s, 8, more);
    } else if wire == THIRTY_TWO_BIT {
      DropStops(s, 4, more);
    } else if wire == LENGTH_DELIMITED {
      ReadVarintStops(s, more, 0);
      var r := ReadVarint(s).value;
      DropStops(r.rest, r.value, more);
    } else {
      SkipGroupStops(tag, s, depth, more);
    }
  }

  lemma {:induction false} SkipGroupStops(tag: nat, s: seq<Octet>, depth: nat, more: seq<Octet>)
    requires depth > 0 && SkipGroup(tag, s, depth).Some?
    ensures SkipGroup(tag, s + more, depth) == Some(SkipGroup(tag, s, depth).value + more)
    decreases |s|, 0
  {
    ReadKeyStops(s, more);
    hide ReadKey;
    var key := ReadKey(s).value;
    if key.wire != END_GROUP {
      SkipFieldStops(key.wire, key.tag, key.rest, depth - 1, more);
      hide SkipField;
      SkipGroupStops(tag, SkipField(key.wire, key.tag, key.rest, depth - 1).value, depth, more);
    }
  }

  lemma MergeFieldStops(m: FrameMetadata, key: Key, more: seq<Octet>)
    requires MergeField(m, key).Some?
    ensures var r := MergeField(m, key).value;
      MergeField(m, key.(rest := key.rest + more)) == Some((r.0, r.1 + more))
  {
    if 1 <= key.tag <= 3 {
      ReadVarintStops(key.rest, more, 0);
      hide ReadVarint;
      var r := ReadVarint(key.rest).value;
      if key.tag == 3 {
        assert (r.rest + more)[..r.value] == r.rest[..r.value];
        assert (r.rest + more)[r.value..] == r.rest[r.value..] + more;
      }
    } else {
      SkipFieldStops(key.wire, key.tag, key.rest, RECURSION_LIMIT, more);
      hide SkipField;
    }
  }

  /** Two messages written one after the other read as the second merged into the first. */
  lemma {:induction false} MergeInTurn(m: FrameMetadata, s: seq<Octet>, more: seq<Octet>)
    requires Merge(m, s).Some?
    ensures Merge(m, s + more) == Merge(Merge(m, s).value, more)
    decreases |s|
  {
    if s == [] {
      assert s + more == more;
    } else {
      ReadKeyStops(s, more);
      var key := ReadKey(s).value;
      MergeFieldStops(m, key, more);
      hide ReadKey, MergeField;
      var r := MergeField(m, key).value;
      MergeInTurn(r.0, r.1, more);
    }
  }

  /** A message of fields this version does not know. */
  ghost predicate OnlyUnknown(s: seq<Octet>)
    decreases |s|
  {
    s == [] ||
      match ReadKey(s)
      case None => false
      case Some(key) =>
        && key.tag > 3
        && match SkipField(key.wire, key.tag, key.rest, RECURSION_LIMIT)
           case None => false
           case Some(rest) => OnlyUnknown(rest)
  }

  lemma {:induction false} UnknownChangesNothing(m: FrameMetadata, s: seq<Octet>)
    requires OnlyUnknown(s)
    ensures Merge(m, s) == Some(m)
    decreases |s|
  {
    if s != [] {
      var key := ReadKey(s).value;
      hide ReadKey, SkipField;
      UnknownChangesNothing(m, SkipField(key.wire, key.tag, key.rest, RECURSION_LIMIT).value);
    }
  }

  /** Fields a later version adds, before or after the known ones, are passed over. */
  lemma UnknownFieldsAreIgnored(m: FrameMetadata, before: seq<Octet>, after: seq<Octet>)
    requires OnlyUnknown(before) && OnlyUnknown(after) && |m.userData| < TWO_64
    ensures Decode(before + Encode(m) + after) == Some(m)
  {
    UnknownChangesNothing(UNSET, before);
    MergeInTurn(UNSET, before, Encode(m));
    MessageRoundTrip(m);
    MergeInTurn(UNSET, before + Encode(m), after);
    UnknownChangesNothing(m, after);
  }

  // ---------------------------------------------------------------------
  // The trailer
  // ---------------------------------------------------------------------

  /** `proto.len() as u32`, then `to_le_bytes`. */
  function LittleEndian(n: nat): (s: seq<Octet>)
    ensures |s| == 4
  {
    [n % 256, n / 256 % 256, n / 256 / 256 % 256, n / 256 / 256 / 256 % 256]
  }

  function FromLittleEndian(s: seq<Octet>): nat
    requires |s| == 4
  {
    var a: int, b: int, c: int, d: int := s[0], s[1], s[2], s[3];
    a + 256 * (b + 256 * (c + 256 * d))
  }

  lemma LengthTruncates(n: nat)
    ensures FromLittleEndian(LittleEndian(n)) == n % TWO_32
  {
    var b := n / 256;
    var c := b / 256;
    var d := c / 256;
    var v := n % 256 + 256 * (b % 256 + 256 * (c % 256 + 256 * (d % 256)));
    assert n == v + TWO_32 * (d / 256);
    assert 0 <= v < TWO_32;
  }

  lemma LengthIsFourBytes(s: seq<Octet>)
    requires |s| == 4
    ensures FromLittleEndian(s) < TWO_32 && LittleEndian(FromLittleEndian(s)) == s
  {
    var b: int, c: int, d: int := s[1], s[2], s[3];
    var n := FromLittleEndian(s);
    assert n / 256 == b + 256 * (c + 256 * d);
    assert n / 256 / 256 == c + 256 * d;
    assert n / 256 / 256 / 256 == d;
  }

  function TrailerOf(proto: seq<Octet>): seq<Octet> {
    proto + LittleEndian(|proto|) + MAGIC
  }

  method EncodeTrailer(m: FrameMetadata) returns (trailer: seq<Octet>)
    ensures trailer == TrailerOf(Encode(m))
  {
    var proto := Encode(m);
    var protoLen := |proto| % TWO_32;
    trailer := proto;
    trailer := trailer + LittleEndian(protoLen);
    trailer := trailer + MAGIC;
    assert LittleEndian(protoLen) == LittleEndian(|proto|) by {
      LengthTruncates(|proto|);
      LengthIsFourBytes(LittleEndian(|proto|));
    }
  }

  function DecodeAndStrip(data: seq<Octet>): Option<(FrameMetadata, seq<Octet>)> {
    var tail := |data|;
    if tail < FRAMING then None
    else if data[tail - 4..] != MAGIC then None
    else
      var protoLen := FromLittleEndian(data[tail - 8..tail - 4]);
      if tail < 8 + protoLen then None
      else
        match Decode(data[tail - 8 - protoLen..tail - 8])
        case None => None
        case Some(meta) => Some((meta, data[..tail - 8 - protoLen]))
  }

  /** The buffer is `payload` and then `proto` framed as a trailer, its length told in four bytes. */
  predicate Framed(data: seq<Octet>, payload: seq<Octet>, proto: seq<Octet>) {
    data == payload + TrailerOf(proto) && |proto| < TWO_32
  }

  lemma PartsOfFrame(data: seq<Octet>, payload: seq<Octet>, proto: seq<Octet>)
    requires Framed(data, payload, proto)
    ensures var tail := |data|;
      && tail == |payload| + |proto| + 8
      && data[tail - 4..] == MAGIC
      && FromLittleEndian(data[tail - 8..tail - 4]) == |proto|
      && data[|payload|..tail - 8] == proto && data[..|payload|] == payload
  {
    var length := LittleEndian(|proto|);
    LengthTruncates(|proto|);
    hide LittleEndian, FromLittleEndian;
    assert data == payload + proto + length + MAGIC;
    assert data[|data| - 8..|data| - 4] == length;
  }

  lemma FramedStrips(data: seq<Octet>, payload: seq<Octet>, proto: seq<Octet>)
    requires Framed(data, payload, proto)
    ensures DecodeAndStrip(data) ==
      match Decode(proto) case None => None case Some(m) => Some((m, payload))
  {
    PartsOfFrame(data, payload, proto);
    hide Framed, Decode, FromLittleEndian;
    assert |data| - 8 - |proto| == |payload|;
  }

  lemma StrippedWasFramed(data: seq<Octet>)
    requires DecodeAndStrip(data).Some?
    ensures var r := DecodeAndStrip(data).value;
      var n := |data| - 8;
      |r.1| <= n && Framed(data, r.1, data[|r.1|..n]) && Decode(data[|r.1|..n]) == Some(r.0)
  {
    var tail := |data|;
    LengthIsFourBytes(data[tail - 8..tail - 4]);
    hide Decode, FromLittleEndian, LittleEndian;
    var payload := DecodeAndStrip(data).value.1;
    var proto := data[|payload|..tail - 8];
    assert data == data[..|payload|] + (proto + data[tail - 8..tail - 4] + data[tail - 4..]);
  }

  /**
   Exactly the well-framed buffers are stripped, and what is left is all that
   stood before the message, ending where the declared length says.
   */
  lemma StripsExactlyTrailers(data: seq<Octet>, m: FrameMetadata, payload: seq<Octet>)
    ensures DecodeAndStrip(data) == Some((m, payload))
      <==> exists proto :: Framed(data, payload, proto) && Decode(proto) == Some(m)
  {
    if DecodeAndStrip(data) == Some((m, payload)) {
      StrippedWasFramed(data);
    }
    hide Decode, DecodeAndStrip, Framed;
    forall proto | Framed(data, payload, proto) && Decode(proto) == Some(m)
      ensures DecodeAndStrip(data) == Some((m, payload))
    {
      FramedStrips(data, payload, proto);
    }
  }

  /**
   A frame's payload and metadata come back as they went in, whatever bytes the
   payload holds, exactly when the message's length fits its four bytes.
   */
  lemma TrailerRoundTrip(payload: seq<Octet>, m: FrameMetadata)
    ensures DecodeAndStrip(payload + TrailerOf(Encode(m))) == Some((m, payload)) <==> |Encode(m)| < TWO_32
  {
    var proto := Encode(m);
    var data := payload + TrailerOf(proto);
    assert |m.userData| <= |EncodeBytes(3, m.userData)| <= |proto|;
    hide Encode, Decode;
    if |proto| < TWO_32 {
      MessageRoundTrip(m);
      FramedStrips(data, payload, proto);
    } else {
      TooLongIsCutShort(payload, proto);
    }
  }

  lemma TooLongIsCutShort(payload: seq<Octet>, proto: seq<Octet>)
    requires |proto| >= TWO_32
    ensures var r := DecodeAndStrip(payload + TrailerOf(proto)); r.Some? ==> |r.value.1| > |payload|
  {
    hide Decode;
    var data := payload + TrailerOf(proto);
    var tail := |data|;
    assert data[tail - 8..tail - 4] == LittleEndian(|proto|);
    LengthTruncates(|proto|);
    hide FromLittleEndian, LittleEndian;
  }
}
