/**
 Reading the linkage constants of a Java class file
 (webrtc-build/check-android-jar.py, `linkage_constants`): the names and
 descriptors the JVM resolves, and none of the debug-only text. The layout is
 that of sections 4.1, 4.4, 4.5 and 4.6 of the Java Virtual Machine
 Specification.
 */
module ClassFile {
  import opened Wrappers

  type U16 = x: int | 0 <= x < 65536

  /** The reasons the reader raises; `OutOfRange` stands for struct.error and IndexError. */
  datatype Error =
    | NotAClassFile
    | OutOfRange
    | TruncatedUtf8
    | UnknownTag(tag: Octet)
    | TruncatedPool
    | TruncatedAttribute
    | InvalidReference

  const MAGIC: seq<Octet> := [0xCA, 0xFE, 0xBA, 0xBE]

  const UTF8: Octet := 1
  const LONG: Octet := 5
  const DOUBLE: Octet := 6
  const CLASS: Octet := 7
  const NAME_AND_TYPE: Octet := 12
  const METHOD_TYPE: Octet := 16

  /** The bytes behind a tag other than UTF8, for the tags there are. */
  const WIDTHS: map<Octet, nat> :=
    map[3 := 4, 4 := 4, 5 := 8, 6 := 8, 7 := 2, 8 := 2, 9 := 4, 10 := 4, 11 := 4, 12 := 4,
        15 := 3, 16 := 2, 17 := 4, 18 := 4, 19 := 2, 20 := 2]

  // ---------------------------------------------------------------------
  // Big-endian fields
  // ---------------------------------------------------------------------

  function Get16(data: seq<Octet>, offset: nat): Option<nat> {
    if offset + 2 > |data| then None
    else
      var high: int, low: int := data[offset], data[offset + 1];
      Some(high * 256 + low)
  }

  function Get32(data: seq<Octet>, offset: nat): Option<nat> {
    match (Get16(data, offset), Get16(data, offset + 2))
    case (Some(high), Some(low)) => Some(high * 65536 + low)
    case _ => None
  }

  function Put16(n: U16): (s: seq<Octet>)
    ensures |s| == 2
  {
    [n / 256, n % 256]
  }

  function Put32(n: nat): (s: seq<Octet>)
    requires n < 0x1_0000_0000
    ensures |s| == 4
  {
    Put16(n / 65536) + Put16(n % 65536)
  }

  // ---------------------------------------------------------------------
  // The reader, as functions
  // ---------------------------------------------------------------------

  datatype Pool = Pool(offset: nat, strings: map<nat, seq<Octet>>, references: set<nat>)

  /** How many indices a constant takes. */
  function Slots(tag: Octet): nat {
    if tag == LONG || tag == DOUBLE then 2 else 1
  }

  function ReadUtf8(data: seq<Octet>, index: nat, p: Pool): Result<Pool, Error> {
    match Get16(data, p.offset + 1)
    case None => Err(OutOfRange)
    case Some(size) =>
      var start := p.offset + 3;
      if start + size > |data| then Err(TruncatedUtf8)
      else Ok(p.(offset := start + size, strings := p.strings[index := data[start..start + size]]))
  }

  /** The index a constant's linkage reference stands at, behind its tag. */
  function ReferenceAt(tag: Octet): Option<nat> {
    if tag == CLASS || tag == METHOD_TYPE then Some(0)
    else if tag == NAME_AND_TYPE then Some(2)
    else None
  }

  function ReadOther(data: seq<Octet>, tag: Octet, p: Pool): Result<Pool, Error>
    requires tag in WIDTHS
  {
    var end := p.offset + 1 + WIDTHS[tag];
    match ReferenceAt(tag)
    case None => if end > |data| then Err(TruncatedPool) else Ok(p.(offset := end))
    case Some(at) =>
      match Get16(data, p.offset + 1 + at)
      case None => Err(OutOfRange)
      case Some(r) =>
        if end > |data| then Err(TruncatedPool)
        else Ok(p.(offset := end, references := p.references + {r}))
  }

  function ReadConstant(data: seq<Octet>, index: nat, p: Pool): Result<Pool, Error>
    requires p.offset < |data|
  {
    var tag := data[p.offset];
    if tag == UTF8 then ReadUtf8(data, index, p)
    else if tag in WIDTHS then ReadOther(data, tag, p)
    else Err(UnknownTag(tag))
  }

  function ReadPool(data: seq<Octet>, index: nat, count: nat, p: Pool): Result<Pool, Error>
    decreases count - index
  {
    if index >= count then Ok(p)
    else if p.offset >= |data| then Err(OutOfRange)
    else
      match ReadConstant(data, index, p)
      case Err(e) => Err(e)
      case Ok(p') => ReadPool(data, index + Slots(data[p.offset]), count, p')
  }

  function ReadAttributes(data: seq<Octet>, offset: nat, n: nat): Result<nat, Error>
    decreases n
  {
    if n == 0 then Ok(offset)
    else
      match Get32(data, offset + 2)
      case None => Err(OutOfRange)
      case Some(length) =>
        if offset + 6 + length > |data| then Err(TruncatedAttribute)
        else ReadAttributes(data, offset + 6 + length, n - 1)
  }

  datatype Members = Members(offset: nat, references: set<nat>)

  function ReadMembers(data: seq<Octet>, n: nat, m: Members): Result<Members, Error>
    decreases n
  {
    if n == 0 then Ok(m)
    else if m.offset + 8 > |data| then Err(OutOfRange)
    else
      match ReadAttributes(data, m.offset + 8, Get16(data, m.offset + 6).value)
      case Err(e) => Err(e)
      case Ok(offset) =>
        ReadMembers(data, n - 1, Members(offset, m.references + {Get16(data, m.offset + 4).value}))
  }

  /** A field or method table, behind its count. */
  function ReadTable(data: seq<Octet>, m: Members): Result<Members, Error> {
    match Get16(data, m.offset)
    case None => Err(OutOfRange)
    case Some(n) => ReadMembers(data, n, m.(offset := m.offset + 2))
  }

  function ReadFieldsAndMethods(data: seq<Octet>, m: Members): Result<Members, Error> {
    match ReadTable(data, m)
    case Err(e) => Err(e)
    case Ok(fields) => ReadTable(data, fields)
  }

  function ReadTables(data: seq<Octet>, p: Pool): Result<Members, Error> {
    match Get16(data, p.offset + 6)
    case None => Err(OutOfRange)
    case Some(interfaces) => ReadFieldsAndMethods(data, Members(p.offset + 8 + interfaces * 2, p.references))
  }

  /** The referenced strings by index, if every reference names a string. */
  function Resolve(strings: map<nat, seq<Octet>>, references: set<nat>): Result<map<nat, seq<Octet>>, Error> {
    if references <= strings.Keys then Ok(map r | r in references :: strings[r]) else Err(InvalidReference)
  }

  function Read(data: seq<Octet>): Result<map<nat, seq<Octet>>, Error> {
    if |data| < 4 || data[..4] != MAGIC then Err(NotAClassFile)
    else
      match Get16(data, 8)
      case None => Err(OutOfRange)
      case Some(count) =>
        match ReadPool(data, 1, count, Pool(10, map[], {}))
        case Err(e) => Err(e)
        case Ok(p) =>
          match ReadTables(data, p)
          case Err(e) => Err(e)
          case Ok(m) => Resolve(p.strings, m.references)
  }

  // ---------------------------------------------------------------------
  // The reader, as the program runs it
  // ---------------------------------------------------------------------

  method ScanAttributes(data: seq<Octet>, start: nat, attributes: nat) returns (r: Result<nat, Error>)
    ensures r == ReadAttributes(data, start, attributes)
  {
    var offset: nat := start;
    for i := 0 to attributes
      invariant ReadAttributes(data, offset, attributes - i) == ReadAttributes(data, start, attributes)
    {
      var length := Get32(data, offset + 2);
      if length.None? {
        return Err(OutOfRange);
      }
      if offset + 6 + length.value > |data| {
        return Err(TruncatedAttribute);
      }
      offset := offset + 6 + length.value;
    }
    return Ok(offset);
  }

  method ScanPool(data: seq<Octet>, count: nat) returns (r: Result<Pool, Error>)
    ensures r == ReadPool(data, 1, count, Pool(10, map[], {}))
  {
    hide Get16;
    var offset: nat, index: nat := 10, 1;
    var strings: map<nat, seq<Octet>> := map[];
    var references: set<nat> := {};
    while index < count
      invariant ReadPool(data, index, count, Pool(offset, strings, references))
             == ReadPool(data, 1, count, Pool(10, map[], {}))
    {
      if offset >= |data| {
        return Err(OutOfRange);
      }
      var tag := data[offset];
      offset := offset + 1;
      if tag == UTF8 {
        var size := Get16(data, offset);
        if size.None? {
          return Err(OutOfRange);
        }
        offset := offset + 2;
        if offset + size.value > |data| {
          return Err(TruncatedUtf8);
        }
        strings := strings[index := data[offset..offset + size.value]];
        offset := offset + size.value;
      } else if tag in WIDTHS {
        if tag == CLASS || tag == METHOD_TYPE {
          var reference := Get16(data, offset);
          if reference.None? {
            return Err(OutOfRange);
          }
          references := references + {reference.value};
        } else if tag == NAME_AND_TYPE {
          var reference := Get16(data, offset + 2);
          if reference.None? {
            return Err(OutOfRange);
          }
          references := references + {reference.value};
        }
        offset := offset + WIDTHS[tag];
        if tag == LONG || tag == DOUBLE {
          index := index + 1;
        }
      } else {
        return Err(UnknownTag(tag));
      }
      if offset > |data| {
        return Err(TruncatedPool);
      }
      index := index + 1;
    }
    return Ok(Pool(offset, strings, references));
  }

  method LinkageConstants(data: seq<Octet>) returns (r: Result<map<nat, seq<Octet>>, Error>)
    ensures r == Read(data)
  {
    hide ReadPool, ReadAttributes;
    if |data| < 4 || data[..4] != MAGIC {
      return Err(NotAClassFile);
    }
    var count := Get16(data, 8);
    if count.None? {
      return Err(OutOfRange);
    }
    var pool := ScanPool(data, count.value);
    if pool.Err? {
      return Err(pool.error);
    }
    var offset: nat, references: set<nat> := pool.value.offset, pool.value.references;
    var interfaces := Get16(data, offset + 6);
    if interfaces.None? {
      return Err(OutOfRange);
    }
    offset := offset + 8 + interfaces.value * 2;
    for table := 0 to 2
      invariant table == 0 ==>
        ReadTables(data, pool.value) == ReadFieldsAndMethods(data, Members(offset, references))
      invariant table == 1 ==> ReadTables(data, pool.value) == ReadTable(data, Members(offset, references))
      invariant table == 2 ==> ReadTables(data, pool.value) == Ok(Members(offset, references))
    {
      ghost var before := Members(offset, references);
      var members := Get16(data, offset);
      if members.None? {
        return Err(OutOfRange);
      }
      offset := offset + 2;
      for member := 0 to members.value
        invariant ReadMembers(data, members.value - member, Members(offset, references)) == ReadTable(data, before)
      {
        if offset + 8 > |data| {
          return Err(OutOfRange);
        }
        var descriptor, attributes := Get16(data, offset + 4).value, Get16(data, offset + 6).value;
        references := references + {descriptor};
        offset := offset + 8;
        var rest := ScanAttributes(data, offset, attributes);
        if rest.Err? {
          return Err(rest.error);
        }
        offset := rest.value;
      }
    }
    r := Yield(pool.value.strings, references);
  }

  method Yield(strings: map<nat, seq<Octet>>, references: set<nat>)
    returns (r: Result<map<nat, seq<Octet>>, Error>)
    ensures r == Resolve(strings, references)
  {
    var left := references;
    var yielded: map<nat, seq<Octet>> := map[];
    while left != {}
      invariant left <= references
      invariant yielded.Keys == references - left <= strings.Keys
      invariant forall k :: k in yielded ==> yielded[k] == strings[k]
      decreases left
    {
      var reference :| reference in left;
      if reference !in strings {
        return Err(InvalidReference);
      }
      yielded := yielded[reference := strings[reference]];
      left := left - {reference};
    }
    assert yielded == Resolve(strings, references).value;
    return Ok(yielded);
  }

  // ---------------------------------------------------------------------
  // Class files, and how they are laid out
  // ---------------------------------------------------------------------

  datatype Constant =
    | Utf8(text: seq<Octet>)
    | Class(name: U16)
    | MethodType(descriptor: U16)
    | NameAndType(name: U16, descriptor: U16)
    /** Every other kind, with what stands behind its tag. */
    | Plain(tag: Octet, payload: seq<Octet>)

  datatype Attribute = Attribute(name: U16, body: seq<Octet>)

  datatype Member = Member(access: U16, name: U16, descriptor: U16, attributes: seq<Attribute>)

  datatype ClassFile = ClassFile(
    version: seq<Octet>, pool: seq<Constant>, access: U16, thisClass: U16, superClass: U16,
    interfaces: seq<U16>, fields: seq<Member>, methods: seq<Member>,
    /** The class's own attributes. */
    tail: seq<Octet>)

  function Tag(c: Constant): Octet {
    match c
    case Utf8(_) => UTF8
    case Class(_) => CLASS
    case MethodType(_) => METHOD_TYPE
    case NameAndType(_, _) => NAME_AND_TYPE
    case Plain(tag, _) => tag
  }

  predicate ValidConstant(c: Constant) {
    match c
    case Utf8(text) => |text| < 65536
    case Plain(tag, payload) =>
      tag in WIDTHS && tag !in {CLASS, METHOD_TYPE, NAME_AND_TYPE} && |payload| == WIDTHS[tag]
    case _ => true
  }

  predicate ValidMember(m: Member) {
    |m.attributes| < 65536 && forall i :: 0 <= i < |m.attributes| ==> |m.attributes[i].body| < 0x1_0000_0000
  }

  predicate ValidMembers(members: seq<Member>) {
    |members| < 65536 && forall i :: 0 <= i < |members| ==> ValidMember(members[i])
  }

  /** Indices the constants take; the count in the file is one more. */
  function Indices(pool: seq<Constant>): nat {
    if pool == [] then 0 else Slots(Tag(pool[0])) + Indices(pool[1..])
  }

  predicate ValidPool(pool: seq<Constant>) {
    Indices(pool) + 1 < 65536 && forall i :: 0 <= i < |pool| ==> ValidConstant(pool[i])
  }

  /** Every table fits the count in front of it; what references name is not restricted. */
  predicate Valid(c: ClassFile) {
    && |c.version| == 4
    && ValidPool(c.pool)
    && |c.interfaces| < 65536
    && ValidMembers(c.fields)
    && ValidMembers(c.methods)
  }

  function ConstantBytes(c: Constant): seq<Octet>
    requires ValidConstant(c)
  {
    [Tag(c)] +
    match c
    case Utf8(text) => Put16(|text|) + text
    case Class(name) => Put16(name)
    case MethodType(descriptor) => Put16(descriptor)
    case NameAndType(name, descriptor) => Put16(name) + Put16(descriptor)
    case Plain(_, payload) => payload
  }

  function PoolBytes(pool: seq<Constant>): seq<Octet>
    requires forall i :: 0 <= i < |pool| ==> ValidConstant(pool[i])
  {
    if pool == [] then [] else ConstantBytes(pool[0]) + PoolBytes(pool[1..])
  }

  function AttributesBytes(attributes: seq<Attribute>): seq<Octet>
    requires forall i :: 0 <= i < |attributes| ==> |attributes[i].body| < 0x1_0000_0000
  {
    if attributes == [] then []
    else
      var a := attributes[0];
      Put16(a.name) + Put32(|a.body|) + a.body + AttributesBytes(attributes[1..])
  }

  function MemberHeader(m: Member): (s: seq<Octet>)
    requires ValidMember(m)
    ensures |s| == 8
  {
    Put16(m.access) + Put16(m.name) + Put16(m.descriptor) + Put16(|m.attributes|)
  }

  function MembersBytes(members: seq<Member>): seq<Octet>
    requires forall i :: 0 <= i < |members| ==> ValidMember(members[i])
  {
    if members == [] then []
    else MemberHeader(members[0]) + AttributesBytes(members[0].attributes) + MembersBytes(members[1..])
  }

  function TableBytes(members: seq<Member>): seq<Octet>
    requires ValidMembers(members)
  {
    Put16(|members|) + MembersBytes(members)
  }

  function InterfacesBytes(interfaces: seq<U16>): (s: seq<Octet>)
    ensures |s| == 2 * |interfaces|
  {
    if interfaces == [] then [] else Put16(interfaces[0]) + InterfacesBytes(interfaces[1..])
  }

  function Head(c: ClassFile): seq<Octet>
    requires Valid(c)
  {
    MAGIC + c.version + Put16(Indices(c.pool) + 1)
  }

  function Middle(c: ClassFile): seq<Octet>
    requires Valid(c)
  {
    Put16(c.access) + Put16(c.thisClass) + Put16(c.superClass) + Put16(|c.interfaces|) + InterfacesBytes(c.interfaces)
  }

  /** Up to the end of the methods table. */
  function Tables(c: ClassFile): seq<Octet>
    requires Valid(c)
  {
    Head(c) + PoolBytes(c.pool) + Middle(c) + TableBytes(c.fields) + TableBytes(c.methods)
  }

  function Serialize(c: ClassFile): seq<Octet>
    requires Valid(c)
  {
    Tables(c) + c.tail
  }

  // ---------------------------------------------------------------------
  // What a class file links to
  // ---------------------------------------------------------------------

  /** The UTF-8 constants by index; a constant of eight bytes takes two indices. */
  function Strings(pool: seq<Constant>, index: nat): map<nat, seq<Octet>> {
    if pool == [] then map[]
    else
      var rest := Strings(pool[1..], index + Slots(Tag(pool[0])));
      if pool[0].Utf8? then map[index := pool[0].text] + rest else rest
  }

  function ConstantReference(c: Constant): set<nat> {
    match c
    case Class(name) => {name}
    case MethodType(descriptor) => {descriptor}
    case NameAndType(_, descriptor) => {descriptor}
    case _ => {}
  }

  function PoolReferences(pool: seq<Constant>): set<nat> {
    if pool == [] then {} else ConstantReference(pool[0]) + PoolReferences(pool[1..])
  }

  function Descriptors(members: seq<Member>): set<nat> {
    if members == [] then {} else {members[0].descriptor} + Descriptors(members[1..])
  }

  function References(c: ClassFile): set<nat> {
    PoolReferences(c.pool) + Descriptors(c.fields) + Descriptors(c.methods)
  }

  // ---------------------------------------------------------------------
  // Reading what was laid out
  // ---------------------------------------------------------------------

  predicate At(data: seq<Octet>, offset: nat, bytes: seq<Octet>) {
    offset + |bytes| <= |data| && data[offset..offset + |bytes|] == bytes
  }

  lemma AtSplits(data: seq<Octet>, offset: nat, front: seq<Octet>, back: seq<Octet>)
    requires At(data, offset, front + back)
    ensures At(data, offset, front) && At(data, offset + |front|, back)
  {
    var here := data[offset..offset + |front| + |back|];
    assert here[..|front|] == front && here[|front|..] == back;
  }

  lemma Get16At(data: seq<Octet>, offset: nat, n: U16)
    requires At(data, offset, Put16(n))
    ensures Get16(data, offset) == Some(n)
  {
    assert data[offset] == data[offset..offset + 2][0] && data[offset + 1] == data[offset..offset + 2][1];
  }

  lemma Get32At(data: seq<Octet>, offset: nat, n: nat)
    requires n < 0x1_0000_0000 && At(data, offset, Put32(n))
    ensures Get32(data, offset) == Some(n)
  {
    AtSplits(data, offset, Put16(n / 65536), Put16(n % 65536));
    Get16At(data, offset, n / 65536);
    Get16At(data, offset + 2, n % 65536);
  }

  /** One constant read: the string it is, or the reference it makes. */
  lemma ReadConstantAt(data: seq<Octet>, index: nat, p: Pool, c: Constant)
    requires ValidConstant(c) && At(data, p.offset, ConstantBytes(c))
    ensures p.offset < |data| && data[p.offset] == Tag(c)
    ensures ReadConstant(data, index, p) == Ok(Pool(
      p.offset + |ConstantBytes(c)|,
      if c.Utf8? then p.strings[index := c.text] else p.strings,
      p.references + ConstantReference(c)))
  {
    var body := ConstantBytes(c)[1..];
    assert p.references + {} == p.references;
    assert ConstantBytes(c) == [Tag(c)] + body;
    AtSplits(data, p.offset, [Tag(c)], body);
    assert data[p.offset] == data[p.offset..p.offset + 1][0];
    hide At;
    match c
    case Utf8(text) =>
      assert body == Put16(|text|) + text;
      AtSplits(data, p.offset + 1, Put16(|text|), text);
      Get16At(data, p.offset + 1, |text|);
      TextAt(data, p.offset + 3, text);
      hide Get16, Put16;
    case Class(name) =>
      assert body == Put16(name);
      Get16At(data, p.offset + 1, name);
      EndAt(data, p.offset + 1, body);
      hide Get16, Put16;
    case MethodType(descriptor) =>
      assert body == Put16(descriptor);
      Get16At(data, p.offset + 1, descriptor);
      EndAt(data, p.offset + 1, body);
      hide Get16, Put16;
    case NameAndType(name, descriptor) =>
      assert body == Put16(name) + Put16(descriptor);
      AtSplits(data, p.offset + 1, Put16(name), Put16(descriptor));
      Get16At(data, p.offset + 3, descriptor);
      EndAt(data, p.offset + 1, body);
      hide Get16, Put16;
    case Plain(tag, payload) =>
      EndAt(data, p.offset + 1, body);
  }

  lemma TextAt(data: seq<Octet>, offset: nat, text: seq<Octet>)
    requires At(data, offset, text)
    ensures offset + |text| <= |data| && data[offset..offset + |text|] == text
  {
  }

  lemma EndAt(data: seq<Octet>, offset: nat, bytes: seq<Octet>)
    requires At(data, offset, bytes)
    ensures offset + |bytes| <= |data|
  {
  }

  lemma StringsOneOn(strings: map<nat, seq<Octet>>, pool: seq<Constant>, index: nat)
    requires pool != []
    ensures var c := pool[0];
      (if c.Utf8? then strings[index := c.text] else strings) + Strings(pool[1..], index + Slots(Tag(c)))
      == strings + Strings(pool, index)
  {
  }

  lemma {:induction false} ReadPoolAt(data: seq<Octet>, index: nat, pool: seq<Constant>, p: Pool)
    requires forall i :: 0 <= i < |pool| ==> ValidConstant(pool[i])
    requires At(data, p.offset, PoolBytes(pool))
    ensures ReadPool(data, index, index + Indices(pool), p) == Ok(Pool(
      p.offset + |PoolBytes(pool)|, p.strings + Strings(pool, index), p.references + PoolReferences(pool)))
    decreases |pool|
  {
    hide At, ReadConstant, ConstantBytes, ConstantReference, ValidConstant, Tag;
    if pool == [] {
      assert p.strings + map[] == p.strings && p.references + {} == p.references;
    } else {
      var c := pool[0];
      AtSplits(data, p.offset, ConstantBytes(c), PoolBytes(pool[1..]));
      ReadConstantAt(data, index, p, c);
      var p' := ReadConstant(data, index, p).value;
      StringsOneOn(p.strings, pool, index);
      assert p'.references + PoolReferences(pool[1..]) == p.references + PoolReferences(pool);
      hide Strings, PoolReferences;
      ReadPoolAt(data, index + Slots(Tag(c)), pool[1..], p');
    }
  }

  lemma {:induction false} ReadAttributesAt(data: seq<Octet>, offset: nat, attributes: seq<Attribute>)
    requires forall i :: 0 <= i < |attributes| ==> |attributes[i].body| < 0x1_0000_0000
    requires At(data, offset, AttributesBytes(attributes))
    ensures ReadAttributes(data, offset, |attributes|) == Ok(offset + |AttributesBytes(attributes)|)
    decreases |attributes|
  {
    hide At, Get32, Put16, Put32;
    if attributes != [] {
      var a := attributes[0];
      var rest := AttributesBytes(attributes[1..]);
      assert AttributesBytes(attributes) == Put16(a.name) + (Put32(|a.body|) + (a.body + rest));
      AtSplits(data, offset, Put16(a.name), Put32(|a.body|) + (a.body + rest));
      AtSplits(data, offset + 2, Put32(|a.body|), a.body + rest);
      AtSplits(data, offset + 6, a.body, rest);
      EndAt(data, offset + 6, a.body);
      Get32At(data, offset + 2, |a.body|);
      ReadAttributesAt(data, offset + 6 + |a.body|, attributes[1..]);
    }
  }

  lemma MemberAt(data: seq<Octet>, offset: nat, m: Member)
    requires ValidMember(m) && At(data, offset, MemberHeader(m))
    ensures offset + 8 <= |data|
    ensures Get16(data, offset + 4) == Some(m.descriptor) && Get16(data, offset + 6) == Some(|m.attributes|)
  {
    var back := Put16(m.descriptor) + Put16(|m.attributes|);
    assert MemberHeader(m) == (Put16(m.access) + Put16(m.name)) + back;
    AtSplits(data, offset, Put16(m.access) + Put16(m.name), back);
    AtSplits(data, offset + 4, Put16(m.descriptor), Put16(|m.attributes|));
    Get16At(data, offset + 4, m.descriptor);
    Get16At(data, offset + 6, |m.attributes|);
  }

  lemma {:induction false} ReadMembersAt(data: seq<Octet>, members: seq<Member>, m: Members)
    requires forall i :: 0 <= i < |members| ==> ValidMember(members[i])
    requires At(data, m.offset, MembersBytes(members))
    ensures ReadMembers(data, |members|, m)
         == Ok(Members(m.offset + |MembersBytes(members)|, m.references + Descriptors(members)))
    decreases |members|
  {
    hide At, Get16, MemberHeader, AttributesBytes, ReadAttributes;
    if members == [] {
      assert m.references + {} == m.references;
    } else {
      var first := members[0];
      var header, attributes := MemberHeader(first), AttributesBytes(first.attributes);
      var rest := MembersBytes(members[1..]);
      assert MembersBytes(members) == header + (attributes + rest);
      AtSplits(data, m.offset, header, attributes + rest);
      AtSplits(data, m.offset + 8, attributes, rest);
      MemberAt(data, m.offset, first);
      ReadAttributesAt(data, m.offset + 8, first.attributes);
      var m' := Members(m.offset + 8 + |attributes|, m.references + {first.descriptor});
      ReadMembersAt(data, members[1..], m');
      assert m'.references + Descriptors(members[1..]) == m.references + Descriptors(members);
    }
  }

  lemma ReadTableAt(data: seq<Octet>, members: seq<Member>, m: Members)
    requires ValidMembers(members) && At(data, m.offset, TableBytes(members))
    ensures ReadTable(data, m)
         == Ok(Members(m.offset + |TableBytes(members)|, m.references + Descriptors(members)))
  {
    hide Get16, At, Put16, MembersBytes, ReadMembers, Descriptors, ValidMember;
    AtSplits(data, m.offset, Put16(|members|), MembersBytes(members));
    Get16At(data, m.offset, |members|);
    ReadMembersAt(data, members, m.(offset := m.offset + 2));
  }

  lemma MiddleAt(data: seq<Octet>, offset: nat, c: ClassFile)
    requires Valid(c) && At(data, offset, Middle(c))
    ensures Get16(data, offset + 6) == Some(|c.interfaces|)
    ensures |Middle(c)| == 8 + 2 * |c.interfaces|
  {
    var front := Put16(c.access) + Put16(c.thisClass) + Put16(c.superClass);
    var back := Put16(|c.interfaces|) + InterfacesBytes(c.interfaces);
    assert Middle(c) == front + back;
    AtSplits(data, offset, front, back);
    AtSplits(data, offset + 6, Put16(|c.interfaces|), InterfacesBytes(c.interfaces));
    Get16At(data, offset + 6, |c.interfaces|);
  }

  lemma HeadAt(data: seq<Octet>, c: ClassFile)
    requires Valid(c) && At(data, 0, Head(c))
    ensures |Head(c)| == 10 && |data| >= 4 && data[..4] == MAGIC && Get16(data, 8) == Some(Indices(c.pool) + 1)
  {
    AtSplits(data, 0, MAGIC + c.version, Put16(Indices(c.pool) + 1));
    AtSplits(data, 0, MAGIC, c.version);
    Get16At(data, 8, Indices(c.pool) + 1);
  }

  function PoolOf(c: ClassFile): Pool
    requires Valid(c)
  {
    Pool(10 + |PoolBytes(c.pool)|, Strings(c.pool, 1), PoolReferences(c.pool))
  }

  /** Where each part of a laid-out class file stands. */
  lemma PartsAt(c: ClassFile)
    requires Valid(c)
    ensures var data, p, middle := Serialize(c), PoolOf(c), Middle(c);
      && At(data, 0, Head(c))
      && At(data, 10, PoolBytes(c.pool))
      && At(data, p.offset, middle)
      && At(data, p.offset + |middle|, TableBytes(c.fields))
      && At(data, p.offset + |middle| + |TableBytes(c.fields)|, TableBytes(c.methods))
      && |Tables(c)| == p.offset + |middle| + |TableBytes(c.fields)| + |TableBytes(c.methods)|
  {
    var data, head, pool, middle := Serialize(c), Head(c), PoolBytes(c.pool), Middle(c);
    var fields, methods := TableBytes(c.fields), TableBytes(c.methods);
    assert data[0..|data|] == data;
    assert At(data, 0, data);
    assert |head| == 10;
    hide At, Head, PoolBytes, Middle, TableBytes, Valid, Strings, PoolReferences;
    AtSplits(data, 0, Tables(c), c.tail);
    AtSplits(data, 0, head + pool + middle + fields, methods);
    AtSplits(data, 0, head + pool + middle, fields);
    AtSplits(data, 0, head + pool, middle);
    AtSplits(data, 0, head, pool);
  }

  lemma ReadTablesAt(data: seq<Octet>, p: Pool, c: ClassFile)
    requires Valid(c)
    requires At(data, p.offset, Middle(c))
    requires At(data, p.offset + |Middle(c)|, TableBytes(c.fields))
    requires At(data, p.offset + |Middle(c)| + |TableBytes(c.fields)|, TableBytes(c.methods))
    ensures ReadTables(data, p) == Ok(Members(
      p.offset + |Middle(c)| + |TableBytes(c.fields)| + |TableBytes(c.methods)|,
      p.references + Descriptors(c.fields) + Descriptors(c.methods)))
  {
    hide At, Middle, TableBytes, ReadTable, Get16, Descriptors, ValidPool;
    MiddleAt(data, p.offset, c);
    var fields := Members(p.offset + |Middle(c)|, p.references);
    ReadTableAt(data, c.fields, fields);
    ReadTableAt(data, c.methods,
      Members(fields.offset + |TableBytes(c.fields)|, p.references + Descriptors(c.fields)));
  }

  lemma ReadPoolOf(data: seq<Octet>, c: ClassFile)
    requires Valid(c) && At(data, 10, PoolBytes(c.pool))
    ensures ReadPool(data, 1, Indices(c.pool) + 1, Pool(10, map[], {})) == Ok(PoolOf(c))
  {
    ReadPoolAt(data, 1, c.pool, Pool(10, map[], {}));
    hide At, PoolBytes, Strings, PoolReferences, ReadPool;
    assert map[] + Strings(c.pool, 1) == Strings(c.pool, 1);
    assert {} + PoolReferences(c.pool) == PoolReferences(c.pool);
  }

  /** The walk over the tables ends where the methods table does. */
  lemma ReadsToTheEndOfMethods(c: ClassFile)
    requires Valid(c)
    ensures ReadTables(Serialize(c), PoolOf(c)) == Ok(Members(|Tables(c)|, References(c)))
  {
    hide At, Serialize, Tables, Head, Middle, TableBytes, PoolBytes, ReadTables, Strings, PoolReferences, Descriptors;
    PartsAt(c);
    ReadTablesAt(Serialize(c), PoolOf(c), c);
  }

  /**
   On every laid-out class file the reader yields exactly the strings that
   classes, method types, name-and-type descriptors and member descriptors
   name; it fails only when one of them names no string.
   */
  lemma YieldsExactlyTheLinkage(c: ClassFile)
    requires Valid(c)
    ensures Read(Serialize(c)) == Resolve(Strings(c.pool, 1), References(c))
  {
    ReadsToTheEndOfMethods(c);
    PartsAt(c);
    HeadAt(Serialize(c), c);
    ReadPoolOf(Serialize(c), c);
    hide ReadPool, ReadTables, Serialize, At, Head, Get16, Resolve;
  }

  // ---------------------------------------------------------------------
  // Truncated class files
  // ---------------------------------------------------------------------

  lemma Get16Stays(data: seq<Octet>, more: seq<Octet>, offset: nat)
    requires Get16(data, offset).Some?
    ensures offset + 2 <= |data| && Get16(data + more, offset) == Get16(data, offset)
  {
  }

  lemma Get32Stays(data: seq<Octet>, more: seq<Octet>, offset: nat)
    requires Get32(data, offset).Some?
    ensures Get32(data + more, offset) == Get32(data, offset)
  {
    Get16Stays(data, more, offset);
    Get16Stays(data, more, offset + 2);
    hide Get16;
  }

  /** A constant read within the data is read the same when more follows, and ends within it. */
  lemma ReadConstantStays(data: seq<Octet>, more: seq<Octet>, index: nat, p: Pool)
    requires p.offset < |data| && ReadConstant(data, index, p).Ok?
    ensures ReadConstant(data + more, index, p) == ReadConstant(data, index, p)
    ensures ReadConstant(data, index, p).value.offset <= |data|
  {
    var tag := data[p.offset];
    assert (data + more)[p.offset] == tag;
    if tag == UTF8 {
      Get16Stays(data, more, p.offset + 1);
      hide Get16;
      var start, size := p.offset + 3, Get16(data, p.offset + 1).value;
      assert (data + more)[start..start + size] == data[start..start + size];
    } else if ReferenceAt(tag).Some? {
      Get16Stays(data, more, p.offset + 1 + ReferenceAt(tag).value);
      hide Get16, ReferenceAt;
    }
  }

  lemma {:induction false} ReadPoolStays(data: seq<Octet>, more: seq<Octet>, index: nat, count: nat, p: Pool)
    requires p.offset <= |data| && ReadPool(data, index, count, p).Ok?
    ensures ReadPool(data + more, index, count, p) == ReadPool(data, index, count, p)
    ensures ReadPool(data, index, count, p).value.offset <= |data|
    decreases count - index
  {
    hide ReadConstant;
    if index < count {
      ReadConstantStays(data, more, index, p);
      assert (data + more)[p.offset] == data[p.offset];
      ReadPoolStays(data, more, index + Slots(data[p.offset]), count, ReadConstant(data, index, p).value);
    }
  }

  lemma {:induction false} ReadAttributesStays(data: seq<Octet>, more: seq<Octet>, offset: nat, n: nat)
    requires offset <= |data| && ReadAttributes(data, offset, n).Ok?
    ensures ReadAttributes(data + more, offset, n) == ReadAttributes(data, offset, n)
    ensures ReadAttributes(data, offset, n).value <= |data|
    decreases n
  {
    hide Get32;
    if n > 0 {
      Get32Stays(data, more, offset + 2);
      ReadAttributesStays(data, more, offset + 6 + Get32(data, offset + 2).value, n - 1);
    }
  }

  lemma HeaderInside(data: seq<Octet>, offset: nat)
    requires offset + 8 <= |data|
    ensures Get16(data, offset + 4).Some? && Get16(data, offset + 6).Some?
  {
  }

  lemma {:induction false} ReadMembersStays(data: seq<Octet>, more: seq<Octet>, n: nat, m: Members)
    requires m.offset <= |data| && ReadMembers(data, n, m).Ok?
    ensures ReadMembers(data + more, n, m) == ReadMembers(data, n, m)
    ensures ReadMembers(data, n, m).value.offset <= |data|
    decreases n
  {
    if n > 0 {
      HeaderInside(data, m.offset);
      Get16Stays(data, more, m.offset + 4);
      Get16Stays(data, more, m.offset + 6);
      hide Get16, ReadAttributes;
      var attributes := Get16(data, m.offset + 6).value;
      ReadAttributesStays(data, more, m.offset + 8, attributes);
      var rest := Members(ReadAttributes(data, m.offset + 8, attributes).value,
                          m.references + {Get16(data, m.offset + 4).value});
      ReadMembersStays(data, more, n - 1, rest);
    }
  }

  lemma ReadTableStays(data: seq<Octet>, more: seq<Octet>, m: Members)
    requires ReadTable(data, m).Ok?
    ensures ReadTable(data + more, m) == ReadTable(data, m) && ReadTable(data, m).value.offset <= |data|
  {
    Get16Stays(data, more, m.offset);
    hide Get16, ReadMembers;
    ReadMembersStays(data, more, Get16(data, m.offset).value, m.(offset := m.offset + 2));
  }

  lemma ReadTablesStays(data: seq<Octet>, more: seq<Octet>, p: Pool)
    requires ReadTables(data, p).Ok?
    ensures ReadTables(data + more, p) == ReadTables(data, p) && ReadTables(data, p).value.offset <= |data|
  {
    Get16Stays(data, more, p.offset + 6);
    hide Get16, ReadTable;
    var fields := Members(p.offset + 8 + Get16(data, p.offset + 6).value * 2, p.references);
    ReadTableStays(data, more, fields);
    ReadTableStays(data, more, ReadTable(data, fields).value);
  }

  /** What an accepted buffer was read as, and that it is read so when more follows. */
  lemma AcceptedStays(data: seq<Octet>, more: seq<Octet>)
    requires Read(data).Ok?
    ensures Get16(data, 8).Some? && Get16(data + more, 8) == Get16(data, 8)
    ensures var pool := ReadPool(data, 1, Get16(data, 8).value, Pool(10, map[], {}));
      && pool.Ok? && ReadPool(data + more, 1, Get16(data, 8).value, Pool(10, map[], {})) == pool
      && ReadTables(data, pool.value).Ok?
      && ReadTables(data + more, pool.value) == ReadTables(data, pool.value)
      && ReadTables(data, pool.value).value.offset <= |data|
  {
    Get16Stays(data, more, 8);
    hide Get16, ReadPool, ReadTables;
    var count := Get16(data, 8).value;
    ReadPoolStays(data, more, 1, count, Pool(10, map[], {}));
    ReadTablesStays(data, more, ReadPool(data, 1, count, Pool(10, map[], {})).value);
  }

  /** A class file cut off anywhere before the end of its methods table is refused. */
  lemma TruncatedFilesAreRefused(c: ClassFile, n: nat)
    requires Valid(c) && n < |Tables(c)|
    ensures Read(Serialize(c)[..n]).Err?
  {
    hide Serialize, Read, At, Head, Tables, ReadPool, ReadTables, Get16, PoolOf, Indices;
    var whole := Serialize(c);
    assert |Tables(c)| <= |whole| by { SerializeIsLonger(c); }
    var data, more := whole[..n], whole[n..];
    assert data + more == whole;
    PartsAt(c);
    HeadAt(whole, c);
    PoolIsRead(c);
    ReadsToTheEndOfMethods(c);
    if Read(data).Ok? {
      AcceptedStays(data, more);
    }
  }

  lemma SerializeIsLonger(c: ClassFile)
    requires Valid(c)
    ensures |Tables(c)| <= |Serialize(c)|
  {
    hide Tables;
  }

  lemma PoolIsRead(c: ClassFile)
    requires Valid(c)
    ensures ReadPool(Serialize(c), 1, Indices(c.pool) + 1, Pool(10, map[], {})) == Ok(PoolOf(c))
  {
    hide At, Serialize, ReadPool, PoolOf, Indices, Head, Tables;
    PartsAt(c);
    ReadPoolOf(Serialize(c), c);
  }
}
