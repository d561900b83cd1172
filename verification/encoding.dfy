/** Equality-index entry keys: escaped, tagged, terminated field encodings (server/src/index.rs). */
module Encoding {
  import opened ByteStrings
  import opened Values

  const SEP: byte := 0
  const COLON: byte := 58

  // ---- Escaping ----

  /** Escape so the result holds no 0x00: 0x00 -> 01 02, 0x01 -> 01 03. */
  function Escape(bytes: Bytes): Bytes {
    if bytes == [] then [] else EscapeByte(bytes[0]) + Escape(bytes[1..])
  }

  function EscapeByte(b: byte): Bytes {
    if b == 0 then [1, 2] else if b == 1 then [1, 3] else [b]
  }

  lemma {:induction false} EscapeSnoc(bytes: Bytes, b: byte)
    ensures Escape(bytes + [b]) == Escape(bytes) + EscapeByte(b)
  {
    hide EscapeByte;
    var longer := bytes + [b];
    if bytes == [] {
      assert longer[1..] == [] && longer[0] == b;
      assert EscapeByte(b) + [] == EscapeByte(b);
    } else {
      EscapeSnoc(bytes[1..], b);
      assert longer[1..] == bytes[1..] + [b] && longer[0] == bytes[0];
    }
  }

  method EscapeInto(bytes: Bytes, into: Bytes) returns (out: Bytes)
    ensures out == into + Escape(bytes)
  {
    out := into;
    for i := 0 to |bytes|
      invariant out == into + Escape(bytes[..i])
    {
      EscapeSnoc(bytes[..i], bytes[i]);
      assert bytes[..i + 1] == bytes[..i] + [bytes[i]];
      if bytes[i] == 0 {
        out := out + [1, 2];
      } else if bytes[i] == 1 {
        out := out + [1, 3];
      } else {
        out := out + [bytes[i]];
      }
    }
    assert bytes[..|bytes|] == bytes;
  }

  lemma {:induction false} EscapeFree(bytes: Bytes)
    ensures Free(Escape(bytes), SEP)
  {
    if bytes != [] { EscapeFree(bytes[1..]); }
  }

  /** Escaping with a terminator preserves the bytewise order both ways; injectivity follows. */
  lemma {:induction false} EscapeOrder(a: Bytes, b: Bytes)
    ensures Less(Escape(a) + [SEP], Escape(b) + [SEP]) <==> Less(a, b)
  {
    if b == [] {
      var x := Escape(a) + [SEP];
      if a == [] {
        LessTrichotomy(x, x);
      } else {
        EscapeFree(a);
        assert x[0] == Escape(a)[0] != 0;
        assert !Less(x, [SEP]);
      }
    } else if a == [] {
      EscapeFree(b);
      var y := Escape(b) + [SEP];
      assert y[0] == Escape(b)[0] != 0;
    } else {
      EscapeOrder(a[1..], b[1..]);
      var ea, eb := Escape(a[1..]) + [SEP], Escape(b[1..]) + [SEP];
      assert Escape(a) + [SEP] == EscapeByte(a[0]) + ea;
      assert Escape(b) + [SEP] == EscapeByte(b[0]) + eb;
      if a[0] == b[0] {
        LessCommonPrefix(EscapeByte(a[0]), ea, eb);
      } else {
        EscapeByteOrder(a[0], ea, b[0], eb);
      }
    }
  }

  lemma EscapeByteOrder(x: byte, r: Bytes, y: byte, s: Bytes)
    requires x != y
    ensures Less(EscapeByte(x) + r, EscapeByte(y) + s) <==> x < y
  {
    var l, m := EscapeByte(x) + r, EscapeByte(y) + s;
    if x <= 1 && y <= 1 {
      assert l[0] == m[0] == 1;
      assert l[1..] == [2 + x] + r && m[1..] == [2 + y] + s;
    }
  }

  lemma EscapeInjective(a: Bytes, b: Bytes)
    requires Escape(a) == Escape(b)
    ensures a == b
  {
    LessTrichotomy(Escape(a) + [SEP], Escape(a) + [SEP]);
    EscapeOrder(a, b);
    EscapeOrder(b, a);
    LessTrichotomy(a, b);
  }

  // ---- Numbers ----

  /** Sort key of a float's bits: a set sign bit complements the word, a clear one flips the top bit. */
  function Sortable(bits: bits64): bits64 {
    if bits >= TWO63 then TWO64 - 1 - bits else bits + TWO63
  }

  function HexDigit(n: int): byte
    requires 0 <= n < 16
  {
    if n < 10 then 48 + n else 87 + n
  }

  /** `n` in exactly `width` lower-case hexadecimal digits. */
  function Hex(n: nat, width: nat): Bytes {
    if width == 0 then [] else Hex(n / 16, width - 1) + [HexDigit(n % 16)]
  }

  function Pow16(width: nat): nat {
    if width == 0 then 1 else 16 * Pow16(width - 1)
  }

  lemma {:induction false} HexShape(n: nat, width: nat)
    ensures |Hex(n, width)| == width && Free(Hex(n, width), SEP)
  {
    if width > 0 { HexShape(n / 16, width - 1); }
  }

  lemma {:induction false} EqualLengthSnoc(a: Bytes, x: byte, b: Bytes, y: byte)
    requires |a| == |b|
    ensures Less(a + [x], b + [y]) <==> Less(a, b) || (a == b && x < y)
  {
    if a == [] {
      assert (a + [x])[1..] == [] && (b + [y])[1..] == [];
    } else {
      EqualLengthSnoc(a[1..], x, b[1..], y);
      assert (a + [x])[1..] == a[1..] + [x] && (b + [y])[1..] == b[1..] + [y];
      assert a == [a[0]] + a[1..] && b == [b[0]] + b[1..];
    }
  }

  lemma {:induction false} HexOrder(a: nat, b: nat, width: nat)
    requires a < Pow16(width) && b < Pow16(width)
    ensures Less(Hex(a, width), Hex(b, width)) <==> a < b
    ensures Hex(a, width) == Hex(b, width) <==> a == b
  {
    if width > 0 {
      HexOrder(a / 16, b / 16, width - 1);
      HexShape(a / 16, width - 1);
      HexShape(b / 16, width - 1);
      var ha, hb := Hex(a / 16, width - 1), Hex(b / 16, width - 1);
      EqualLengthSnoc(ha, HexDigit(a % 16), hb, HexDigit(b % 16));
      assert Hex(a, width)[..width - 1] == ha && Hex(b, width)[..width - 1] == hb;
      assert Hex(a, width)[width - 1] == HexDigit(a % 16) && Hex(b, width)[width - 1] == HexDigit(b % 16);
    }
  }

  /** The IEEE 754 totalOrder on non-NaN bit patterns: negatives first, larger magnitudes further out. */
  predicate TotalOrderLess(a: bits64, b: bits64) {
    if a >= TWO63 then b < TWO63 || b < a else b < TWO63 && a < b
  }

  /** The encoded numbers sort as the total order on floats does: section 5.10 of IEEE 754-2019. */
  lemma NumberOrder(a: bits64, b: bits64)
    ensures Less(EncodeNumber(a) + [SEP], EncodeNumber(b) + [SEP]) <==> TotalOrderLess(a, b)
    ensures EncodeNumber(a) == EncodeNumber(b) <==> a == b
  {
    var x, y := Sortable(a), Sortable(b);
    Pow16Is64Bits();
    HexOrder(x, y, 16);
    HexShape(x, 16);
    HexShape(y, 16);
    LessCommonPrefix([102], Hex(x, 16) + [SEP], Hex(y, 16) + [SEP]);
    EqualLengthSnoc(Hex(x, 16), SEP, Hex(y, 16), SEP);
    assert EncodeNumber(a) + [SEP] == [102] + (Hex(x, 16) + [SEP]);
    assert EncodeNumber(b) + [SEP] == [102] + (Hex(y, 16) + [SEP]);
    assert EncodeNumber(a)[1..] == Hex(x, 16) && EncodeNumber(b)[1..] == Hex(y, 16);
  }

  lemma Pow16Is64Bits()
    ensures Pow16(16) == TWO64
  {
    assert Pow16(4) == 0x1_0000;
    assert Pow16(8) == 0x1_0000_0000 by { assert Pow16(8) == 16 * 16 * 16 * 16 * Pow16(4); }
    assert Pow16(12) == 0x1_0000_0000_0000 by { assert Pow16(12) == 16 * 16 * 16 * 16 * Pow16(8); }
    assert Pow16(16) == 16 * 16 * 16 * 16 * Pow16(12);
  }

  // ---- Values ----

  function EncodeNumber(bits: bits64): Bytes {
    [102] + Hex(Sortable(bits), 16)
  }

  /** A type tag, then the value; absent and null are the bare tag. */
  function EncodeValue(e: Env, value: Option<Value>): Bytes {
    match value
    case None => [110]
    case Some(Null) => [110]
    case Some(Bool(b)) => [98, if b then 49 else 48]
    case Some(Number(bits)) => EncodeNumber(bits)
    case Some(Str(s)) => [115] + Escape(s)
    case Some(Array(items)) => [106] + Escape(e.json(Array(items)))
    case Some(Object(members)) => [106] + Escape(e.json(Object(members)))
  }

  lemma EncodeValueFree(e: Env, value: Option<Value>)
    ensures Free(EncodeValue(e, value), SEP)
  {
    if value.Some? {
      match value.value
      case Null =>
      case Bool(b) =>
      case Number(bits) => HexShape(Sortable(bits), 16);
      case Str(s) => EscapeFree(s);
      case Array(_) => EscapeFree(e.json(value.value));
      case Object(_) => EscapeFree(e.json(value.value));
    }
  }

  predicate ValueEq(e: Env, a: Option<Value>, b: Option<Value>) {
    EncodeValue(e, a) == EncodeValue(e, b)
  }

  /** What the scan treats as equal: absent and null alike, scalars by value and never across types,
      compound values by their canonical text. */
  lemma ValueEqMeaning(e: Env, a: Option<Value>, b: Option<Value>)
    ensures ValueEq(e, a, b) <==>
            var x, y := if a.Some? then a.value else Null, if b.Some? then b.value else Null;
            if x.Array? || x.Object? then (y.Array? || y.Object?) && e.json(x) == e.json(y) else x == y
  {
    var x, y := if a.Some? then a.value else Null, if b.Some? then b.value else Null;
    var ea, eb := EncodeValue(e, a), EncodeValue(e, b);
    if ea == eb {
      assert ea[0] == eb[0] && ea[1..] == eb[1..];
      if x.Number? && y.Number? { NumberOrder(x.bits, y.bits); }
      if x.Str? && y.Str? { assert ea[1..] == Escape(x.s); EscapeInjective(x.s, y.s); }
      if (x.Array? || x.Object?) && (y.Array? || y.Object?) {
        assert ea[1..] == Escape(e.json(x)) && eb[1..] == Escape(e.json(y));
        EscapeInjective(e.json(x), e.json(y));
      }
    }
  }

  // ---- The order of values ----

  /** Types in the order their values sort: booleans, numbers, compound values, null, strings. */
  function Kind(v: Option<Value>): nat {
    match v
    case None => 3
    case Some(Null) => 3
    case Some(Bool(_)) => 0
    case Some(Number(_)) => 1
    case Some(Str(_)) => 4
    case Some(Array(_)) => 2
    case Some(Object(_)) => 2
  }

  /** False before true, numbers by the total order, strings bytewise, compound values by their canonical text. */
  predicate Before(e: Env, a: Option<Value>, b: Option<Value>) {
    || Kind(a) < Kind(b)
    || (&& Kind(a) == Kind(b) && a.Some? && b.Some?
        && match a.value
           case Null => false
           case Bool(x) => !x && b.value == Bool(true)
           case Number(bits) => b.value.Number? && TotalOrderLess(bits, b.value.bits)
           case Str(s) => b.value.Str? && Less(s, b.value.s)
           case Array(_) => Less(e.json(a.value), e.json(b.value))
           case Object(_) => Less(e.json(a.value), e.json(b.value)))
  }

  /** Encoded values sort as the values do, within a type and across types. */
  lemma ValueOrder(e: Env, a: Option<Value>, b: Option<Value>)
    ensures Less(EncodeValue(e, a) + [SEP], EncodeValue(e, b) + [SEP]) <==> Before(e, a, b)
  {
    hide Sortable, Hex, Escape, TotalOrderLess;
    if Kind(a) != Kind(b) {
      TagOrder(e, a, b);
    } else if a.Some? && b.Some? {
      match a.value
      case Null => NotBelowItself(e, a, b);
      case Bool(x) => BoolOrder(e, x, b.value.b);
      case Number(bits) => NumberOrder(bits, b.value.bits);
      case Str(s) => TaggedOrder(115, s, b.value.s);
      case Array(_) => TaggedOrder(106, e.json(a.value), e.json(b.value));
      case Object(_) => TaggedOrder(106, e.json(a.value), e.json(b.value));
    } else {
      NotBelowItself(e, a, b);
    }
  }

  lemma TagOrder(e: Env, a: Option<Value>, b: Option<Value>)
    requires Kind(a) != Kind(b)
    ensures Less(EncodeValue(e, a) + [SEP], EncodeValue(e, b) + [SEP]) <==> Kind(a) < Kind(b)
  {
    hide Sortable, Hex, Escape;
    var x, y := EncodeValue(e, a) + [SEP], EncodeValue(e, b) + [SEP];
    assert x[0] == EncodeValue(e, a)[0] && y[0] == EncodeValue(e, b)[0];
  }

  lemma NotBelowItself(e: Env, a: Option<Value>, b: Option<Value>)
    requires Kind(a) == Kind(b) == 3
    ensures !Less(EncodeValue(e, a) + [SEP], EncodeValue(e, b) + [SEP])
  {
    LessTrichotomy([110] + [SEP], [110] + [SEP]);
  }

  lemma BoolOrder(e: Env, x: bool, y: bool)
    ensures Less(EncodeValue(e, Some(Bool(x))) + [SEP], EncodeValue(e, Some(Bool(y))) + [SEP]) <==> !x && y
  {
    var a, b := if x then 49 else 48, if y then 49 else 48;
    LessCommonPrefix([98], [a, SEP], [b, SEP]);
    assert [98, a] + [SEP] == [98] + [a, SEP] && [98, b] + [SEP] == [98] + [b, SEP];
    if x == y { LessTrichotomy([a, SEP], [b, SEP]); }
  }

  lemma TaggedOrder(tag: byte, x: Bytes, y: Bytes)
    ensures Less([tag] + Escape(x) + [SEP], [tag] + Escape(y) + [SEP]) <==> Less(x, y)
  {
    EscapeOrder(x, y);
    LessCommonPrefix([tag], Escape(x) + [SEP], Escape(y) + [SEP]);
    assert [tag] + Escape(x) + [SEP] == [tag] + (Escape(x) + [SEP]);
    assert [tag] + Escape(y) + [SEP] == [tag] + (Escape(y) + [SEP]);
  }

  // ---- Keys ----

  const IDX: Bytes := [95, 105, 100, 120]  // "_idx"

  /** The segments one after another, each closed by the separator. */
  function Terminated(vals: seq<Bytes>, sep: byte): Bytes {
    if vals == [] then [] else vals[0] + [sep] + Terminated(vals[1..], sep)
  }

  /** `_idx:{project}:{collection}:{index}:` */
  function IndexBase(p: Bytes, c: Bytes, name: Bytes): Bytes {
    Terminated([IDX, p, c, name], COLON)
  }

  function EncodedFields(e: Env, fields: seq<Bytes>, data: Data): seq<Bytes> {
    seq(|fields|, i requires 0 <= i < |fields| => EncodeValue(e, Get(data, fields[i])))
  }

  lemma {:induction false} TerminatedSnoc(vals: seq<Bytes>, v: Bytes, sep: byte)
    ensures Terminated(vals + [v], sep) == Terminated(vals, sep) + v + [sep]
  {
    if vals == [] {
      assert (vals + [v])[1..] == [];
    } else {
      TerminatedSnoc(vals[1..], v, sep);
      assert (vals + [v])[1..] == vals[1..] + [v];
    }
  }

  function EntryKey(e: Env, p: Bytes, c: Bytes, index: IndexDef, data: Data, id: Bytes): Bytes {
    IndexBase(p, c, index.name) + Terminated(EncodedFields(e, index.fields, data), SEP) + id
  }

  method ComputeEntryKey(e: Env, p: Bytes, c: Bytes, index: IndexDef, data: Data, id: Bytes) returns (key: Bytes)
    ensures key == EntryKey(e, p, c, index, data, id)
  {
    hide EncodeValue, IndexBase;
    key := IndexBase(p, c, index.name);
    var vals := EncodedFields(e, index.fields, data);
    for i := 0 to |index.fields|
      invariant key == IndexBase(p, c, index.name) + Terminated(vals[..i], SEP)
    {
      TerminatedSnoc(vals[..i], vals[i], SEP);
      assert vals[..i + 1] == vals[..i] + [vals[i]];
      key := key + EncodeValue(e, Get(data, index.fields[i]));
      key := key + [SEP];
    }
    assert vals[..|vals|] == vals;
    key := key + id;
  }

  // ---- The order of entries ----

  /** Which of two documents comes first in an index: by the first field in which they differ, then by id. */
  predicate EntryBefore(e: Env, fields: seq<Bytes>, a: Data, id: Bytes, b: Data, other: Bytes) {
    if fields == [] then Less(id, other)
    else
      || Before(e, Get(a, fields[0]), Get(b, fields[0]))
      || (ValueEq(e, Get(a, fields[0]), Get(b, fields[0])) && EntryBefore(e, fields[1..], a, id, b, other))
  }

  /** Segments that differ decide the order, whatever follows their terminators. */
  lemma {:induction false} SegmentsDecide(a: Bytes, b: Bytes, r: Bytes, s: Bytes)
    requires Free(a, SEP) && Free(b, SEP) && a != b
    ensures Less(a + [SEP] + r, b + [SEP] + s) <==> Less(a + [SEP], b + [SEP])
  {
    var x, y := a + [SEP] + r, b + [SEP] + s;
    if a != [] && b != [] && a[0] == b[0] {
      SegmentsDecide(a[1..], b[1..], r, s);
      assert a == [a[0]] + a[1..] && b == [b[0]] + b[1..];
      LessCommonPrefix([a[0]], a[1..] + [SEP] + r, b[1..] + [SEP] + s);
      LessCommonPrefix([a[0]], a[1..] + [SEP], b[1..] + [SEP]);
      assert x == [a[0]] + (a[1..] + [SEP] + r) && y == [a[0]] + (b[1..] + [SEP] + s);
      assert a + [SEP] == [a[0]] + (a[1..] + [SEP]) && b + [SEP] == [a[0]] + (b[1..] + [SEP]);
    } else {
      assert x[0] == (a + [SEP])[0] && y[0] == (b + [SEP])[0];
    }
  }

  lemma {:induction false} TerminatedOrder(e: Env, fields: seq<Bytes>, a: Data, id: Bytes, b: Data, other: Bytes)
    ensures Less(Terminated(EncodedFields(e, fields, a), SEP) + id,
                 Terminated(EncodedFields(e, fields, b), SEP) + other)
       <==> EntryBefore(e, fields, a, id, b, other)
  {
    hide EncodeValue, Before, Less;
    var xs, ys := EncodedFields(e, fields, a), EncodedFields(e, fields, b);
    if fields == [] {
      assert Terminated(xs, SEP) + id == id && Terminated(ys, SEP) + other == other;
    } else {
      TerminatedOrder(e, fields[1..], a, id, b, other);
      assert xs[1..] == EncodedFields(e, fields[1..], a) && ys[1..] == EncodedFields(e, fields[1..], b);
      var r, s := Terminated(xs[1..], SEP) + id, Terminated(ys[1..], SEP) + other;
      assert Terminated(xs, SEP) + id == xs[0] + [SEP] + r;
      assert Terminated(ys, SEP) + other == ys[0] + [SEP] + s;
      FirstDecides(e, Get(a, fields[0]), Get(b, fields[0]), r, s);
    }
  }

  lemma FirstDecides(e: Env, a: Option<Value>, b: Option<Value>, r: Bytes, s: Bytes)
    ensures Less(EncodeValue(e, a) + [SEP] + r, EncodeValue(e, b) + [SEP] + s)
       <==> Before(e, a, b) || (ValueEq(e, a, b) && Less(r, s))
  {
    hide EncodeValue, Before, Less;
    var x, y := EncodeValue(e, a), EncodeValue(e, b);
    ValueOrder(e, a, b);
    if x == y {
      LessCommonPrefix(x + [SEP], r, s);
      LessTrichotomy(x + [SEP], y + [SEP]);
    } else {
      EncodeValueFree(e, a);
      EncodeValueFree(e, b);
      SegmentsDecide(x, y, r, s);
    }
  }

  /** Entries of an index sort by the values of its fields, in field order, and then by id. */
  lemma EntryOrder(e: Env, p: Bytes, c: Bytes, index: IndexDef, a: Data, id: Bytes, b: Data, other: Bytes)
    ensures Less(EntryKey(e, p, c, index, a, id), EntryKey(e, p, c, index, b, other))
       <==> EntryBefore(e, index.fields, a, id, b, other)
  {
    var base := IndexBase(p, c, index.name);
    var x, y := Terminated(EncodedFields(e, index.fields, a), SEP), Terminated(EncodedFields(e, index.fields, b), SEP);
    TerminatedOrder(e, index.fields, a, id, b, other);
    LessCommonPrefix(base, x + id, y + other);
    assert base + x + id == base + (x + id) && base + y + other == base + (y + other);
  }

  // ---- Queries ----

  /** Length of the longest run of leading index fields the parameters bind. */
  function BoundCount(fields: seq<Bytes>, params: Data): (n: nat)
    ensures n <= |fields|
    ensures forall i | 0 <= i < n :: fields[i] in params
    ensures n < |fields| ==> fields[n] !in params
  {
    if fields == [] || fields[0] !in params then 0 else 1 + BoundCount(fields[1..], params)
  }

  /** The bound fields, or `None` when the parameters are not a non-empty prefix of the index fields. */
  function BoundFields(index: IndexDef, params: Data): Option<seq<Bytes>> {
    var n := BoundCount(index.fields, params);
    if n == 0 || |params| != n then None else Some(index.fields[..n])
  }

  /** The parameters are as many as a non-empty run of leading fields, bind all of it, and not the field after it. */
  predicate Binds(fields: seq<Bytes>, params: Data) {
    && 0 < |params| <= |fields|
    && (forall i | 0 <= i < |params| :: fields[i] in params)
    && (|params| < |fields| ==> fields[|params|] !in params)
  }

  /** Exactly which parameters an index answers, and which fields they bind. */
  lemma BoundIffBinds(index: IndexDef, params: Data)
    ensures BoundFields(index, params).Some? <==> Binds(index.fields, params)
    ensures Binds(index.fields, params) ==> BoundFields(index, params) == Some(index.fields[..|params|])
  {
  }

  predicate Distinct(fields: seq<Bytes>) {
    forall i, j | 0 <= i < j < |fields| :: fields[i] != fields[j]
  }

  function Run(fields: seq<Bytes>, k: nat): set<Bytes>
    requires k <= |fields|
  {
    set i | 0 <= i < k :: fields[i]
  }

  lemma {:induction false} RunSize(fields: seq<Bytes>, k: nat)
    requires k <= |fields|
    ensures |Run(fields, k)| <= k && (Distinct(fields) ==> |Run(fields, k)| == k)
  {
    if k > 0 {
      RunSize(fields, k - 1);
      assert Run(fields, k) == Run(fields, k - 1) + {fields[k - 1]};
      if Distinct(fields) { assert fields[k - 1] !in Run(fields, k - 1); }
    }
  }

  /** If its fields are distinct, an index answers exactly the parameters whose names are a non-empty run of its leading
      fields, and those are then all bound. */
  lemma BindsIsRun(fields: seq<Bytes>, params: Data)
    requires Distinct(fields)
    ensures Binds(fields, params) <==> exists k :: 0 < k <= |fields| && params.Keys == Run(fields, k)
    ensures Binds(fields, params) ==> params.Keys == Run(fields, |params|)
  {
    assert |params| == |params.Keys|;
    if Binds(fields, params) {
      RunSize(fields, |params|);
      SameSize(Run(fields, |params|), params.Keys);
    }
    if k :| 0 < k <= |fields| && params.Keys == Run(fields, k) {
      RunSize(fields, k);
      if k < |fields| { assert fields[k] !in Run(fields, k); }
    }
  }

  lemma SameSize(a: set<Bytes>, b: set<Bytes>)
    requires a <= b && |a| == |b|
    ensures a == b
  {
    assert b == a + (b - a);
    assert |b| == |a| + |b - a|;
  }

  /** The document has the value of every parameter. */
  predicate MatchesAll(e: Env, params: Data, data: Data) {
    forall f | f in params :: ValueEq(e, Get(data, f), Some(params[f]))
  }

  lemma BoundMatchIsAll(e: Env, fields: seq<Bytes>, params: Data, data: Data)
    requires Distinct(fields) && Binds(fields, params)
    ensures MatchesParams(e, fields[..|params|], params, data) <==> MatchesAll(e, params, data)
  {
    hide ValueEq;
    BindsIsRun(fields, params);
    if MatchesParams(e, fields[..|params|], params, data) {
      forall f | f in params ensures ValueEq(e, Get(data, f), Some(params[f])) {
        assert f in Run(fields, |params|);
        var i :| 0 <= i < |params| && fields[i] == f;
        assert fields[..|params|][i] == f;
      }
    }
    if MatchesAll(e, params, data) {
      forall i | 0 <= i < |params| ensures ValueEq(e, Get(data, fields[..|params|][i]), Get(params, fields[i])) {
        assert fields[i] in params;
      }
    }
  }

  /** Every parameter it accepts is bound. */
  predicate BindsAll(fields: seq<Bytes>, params: Data) {
    Binds(fields, params) ==> params.Keys == Run(fields, |params|)
  }

  /** Nothing forbids an index that lists a field twice, and exactly such an index can take a parameter it does not look
      at: all parameters it answers are bound if and only if its fields are distinct. */
  lemma EveryParamIsBoundIff(fields: seq<Bytes>)
    ensures (forall params: Data :: BindsAll(fields, params)) <==> Distinct(fields)
  {
    if Distinct(fields) {
      forall params: Data ensures BindsAll(fields, params) { BindsIsRun(fields, params); }
    } else {
      var params := Padded(Run(fields, |fields|), |fields|);
      RepeatedIsFewer(fields);
      PaddedSize(Run(fields, |fields|), |fields|);
      assert !BindsAll(fields, params);
    }
  }

  /** The smallest such case: an index on one field listed twice takes a parameter for another field, and a document
      that does not have its value matches all the same. */
  lemma RepeatedFieldIgnoresParam(e: Env, field: Bytes, other: Bytes, x: Value, y: Value)
    requires field != other && !ValueEq(e, None, Some(y))
    ensures var fields, params, data := [field, field], map[field := x, other := y], map[field := x];
            Binds(fields, params) && MatchesParams(e, fields[..|params|], params, data) && !MatchesAll(e, params, data)
  {
    hide ValueEq;
    var params: Data, data: Data := map[field := x, other := y], map[field := x];
    assert params.Keys == {field, other};
    assert |params| == |params.Keys|;
    assert Get(data, field) == Get(params, field) && other in params && Get(data, other) == None;
    SameIsEqual(e, Some(x));
  }

  lemma SameIsEqual(e: Env, v: Option<Value>)
    ensures ValueEq(e, v, v)
  {}

  lemma RepeatedIsFewer(fields: seq<Bytes>)
    requires !Distinct(fields)
    ensures |Run(fields, |fields|)| < |fields|
  {
    var i, j :| 0 <= i < j < |fields| && fields[i] == fields[j];
    var rest := fields[..j] + fields[j + 1..];
    RunSize(rest, |rest|);
    assert forall k | 0 <= k < |rest| :: rest[k] == if k < j then fields[k] else fields[k + 1];
    forall f ensures f in Run(fields, |fields|) <==> f in Run(rest, |rest|) {
      if f in Run(fields, |fields|) {
        var k :| 0 <= k < |fields| && fields[k] == f;
        assert rest[if k == j then i else if k < j then k else k - 1] == f;
      }
    }
    assert Run(fields, |fields|) == Run(rest, |rest|);
  }

  /** `n` parameters, all of the given names among them. */
  ghost function Padded(names: set<Bytes>, n: nat): Data
    decreases n - |names|
  {
    if |names| >= n then map f | f in names :: Null
    else
      NewName(names);
      var f: Bytes :| f !in names;
      Padded(names + {f}, n)
  }

  lemma {:induction false} PaddedSize(names: set<Bytes>, n: nat)
    requires |names| <= n
    ensures |Padded(names, n)| == n && names <= Padded(names, n).Keys
    decreases n - |names|
  {
    var params := Padded(names, n);
    if |names| >= n {
      assert params.Keys == names;
      assert |params| == |params.Keys|;
    } else {
      NewName(names);
      var f: Bytes :| f !in names && params == Padded(names + {f}, n);
      PaddedSize(names + {f}, n);
    }
  }

  lemma {:induction false} LongestOf(names: set<Bytes>) returns (n: nat)
    ensures forall f | f in names :: |f| <= n
  {
    if names == {} {
      n := 0;
    } else {
      var f :| f in names;
      n := LongestOf(names - {f});
      if |f| > n { n := |f|; }
    }
  }

  lemma NewName(names: set<Bytes>)
    ensures exists f: Bytes :: f !in names
  {
    var n := LongestOf(names);
    var f: Bytes := seq(n + 1, _ => 0);
    assert f !in names;
  }

  function QueryPrefix(e: Env, p: Bytes, c: Bytes, index: IndexDef, params: Data): Option<Bytes> {
    match BoundFields(index, params)
    case None => None
    case Some(bound) => Some(IndexBase(p, c, index.name) + Terminated(EncodedFields(e, bound, params), SEP))
  }

  predicate MatchesParams(e: Env, fields: seq<Bytes>, params: Data, data: Data) {
    forall i | 0 <= i < |fields| :: ValueEq(e, Get(data, fields[i]), Get(params, fields[i]))
  }

  /** Separator-free blocks: one terminated list is a prefix of another exactly when it is an initial
      segment of it, block by block. */
  lemma {:induction false} TerminatedPrefix(xs: seq<Bytes>, ys: seq<Bytes>, tail: Bytes, sep: byte)
    requires |xs| <= |ys|
    requires forall x | x in xs :: Free(x, sep)
    requires forall y | y in ys :: Free(y, sep)
    ensures Terminated(xs, sep) <= Terminated(ys, sep) + tail <==> xs <= ys
  {
    if xs != [] {
      assert xs[0] in xs && ys[0] in ys;
      assert forall x | x in xs[1..] :: x in xs;
      assert forall y | y in ys[1..] :: y in ys;
      TerminatedPrefix(xs[1..], ys[1..], tail, sep);
      SplitPrefix(xs[0], ys[0], Terminated(xs[1..], sep), Terminated(ys[1..], sep) + tail, sep);
      assert Terminated(ys, sep) + tail == ys[0] + [sep] + (Terminated(ys[1..], sep) + tail);
      SeqConsPrefix(xs, ys);
    }
  }

  lemma SeqConsPrefix(xs: seq<Bytes>, ys: seq<Bytes>)
    requires xs != [] && ys != []
    ensures xs <= ys <==> xs[0] == ys[0] && xs[1..] <= ys[1..]
  {
    if xs[0] == ys[0] && xs[1..] <= ys[1..] {
      assert forall i | 1 <= i < |xs| :: xs[i] == xs[1..][i - 1] == ys[1..][i - 1] == ys[i];
    }
  }

  lemma EncodedFieldsFree(e: Env, fields: seq<Bytes>, data: Data)
    ensures forall v | v in EncodedFields(e, fields, data) :: Free(v, SEP)
  {
    forall v | v in EncodedFields(e, fields, data) ensures Free(v, SEP) {
      var i :| 0 <= i < |fields| && v == EncodedFields(e, fields, data)[i];
      EncodeValueFree(e, Get(data, fields[i]));
    }
  }

  lemma CommonPrefix(base: Bytes, a: Bytes, b: Bytes)
    ensures base + a <= base + b <==> a <= b
  {
    if base + a <= base + b {
      assert forall i | 0 <= i < |a| :: a[i] == (base + a)[|base| + i] == (base + b)[|base| + i] == b[i];
    }
  }

  /** The index scan and the post-filter agree: for every index, every bound parameter set, every
      document and every id, the entry lies under the query prefix exactly when the document matches. */
  lemma ScanIffMatches(e: Env, p: Bytes, c: Bytes, index: IndexDef, params: Data, data: Data, id: Bytes)
    requires BoundFields(index, params).Some?
    ensures QueryPrefix(e, p, c, index, params).value <= EntryKey(e, p, c, index, data, id)
       <==> MatchesParams(e, BoundFields(index, params).value, params, data)
  {
    var bound := BoundFields(index, params).value;
    var xs, ys := EncodedFields(e, bound, params), EncodedFields(e, index.fields, data);
    var base := IndexBase(p, c, index.name);
    EncodedFieldsFree(e, bound, params);
    EncodedFieldsFree(e, index.fields, data);
    TerminatedPrefix(xs, ys, id, SEP);
    CommonPrefix(base, Terminated(xs, SEP), Terminated(ys, SEP) + id);
    assert base + (Terminated(ys, SEP) + id) == EntryKey(e, p, c, index, data, id);
    if xs <= ys {
      forall i | 0 <= i < |bound| ensures ValueEq(e, Get(data, bound[i]), Get(params, bound[i])) {
        assert xs[i] == ys[i];
      }
    }
    if MatchesParams(e, bound, params, data) {
      assert forall i | 0 <= i < |xs| :: xs[i] == ys[i];
    }
  }

  lemma TerminatedFree(xs: seq<Bytes>, x: Bytes, sep: byte)
    requires Free(x, sep)
    ensures Free(Terminated(xs, sep) + x, sep) <==> xs == []
    ensures xs == [] ==> Terminated(xs, sep) + x == x
  {
    if xs != [] {
      assert (Terminated(xs, sep) + x)[|xs[0]|] == sep;
    }
  }

  /** Segments and a tail without the separator are determined by their concatenation. */
  lemma {:induction false} TerminatedInjective(xs: seq<Bytes>, x: Bytes, ys: seq<Bytes>, y: Bytes, sep: byte)
    requires forall v | v in xs :: Free(v, sep)
    requires forall v | v in ys :: Free(v, sep)
    requires Free(x, sep) && Free(y, sep)
    requires Terminated(xs, sep) + x == Terminated(ys, sep) + y
    ensures xs == ys && x == y
  {
    TerminatedFree(xs, x, sep);
    TerminatedFree(ys, y, sep);
    if xs != [] && ys != [] {
      PeelSegment(xs, x, ys, y, sep);
      assert forall v | v in xs[1..] :: v in xs;
      assert forall v | v in ys[1..] :: v in ys;
      TerminatedInjective(xs[1..], x, ys[1..], y, sep);
    }
  }

  lemma PeelSegment(xs: seq<Bytes>, x: Bytes, ys: seq<Bytes>, y: Bytes, sep: byte)
    requires xs != [] && ys != [] && Free(xs[0], sep) && Free(ys[0], sep)
    ensures Terminated(xs, sep) + x == Terminated(ys, sep) + y
       <==> xs[0] == ys[0] && Terminated(xs[1..], sep) + x == Terminated(ys[1..], sep) + y
  {
    assert Terminated(xs, sep) + x == xs[0] + [sep] + (Terminated(xs[1..], sep) + x);
    assert Terminated(ys, sep) + y == ys[0] + [sep] + (Terminated(ys[1..], sep) + y);
    SplitEqual(xs[0], ys[0], Terminated(xs[1..], sep) + x, Terminated(ys[1..], sep) + y, sep);
  }

  /** As many segments on both sides: equal strings have equal segments and equal tails, whatever the
      tails hold. */
  lemma {:induction false} TerminatedSame(xs: seq<Bytes>, x: Bytes, ys: seq<Bytes>, y: Bytes, sep: byte)
    requires |xs| == |ys|
    requires forall v | v in xs :: Free(v, sep)
    requires forall v | v in ys :: Free(v, sep)
    requires Terminated(xs, sep) + x == Terminated(ys, sep) + y
    ensures xs == ys && x == y
  {
    if xs == [] {
      assert Terminated(xs, sep) + x == x && Terminated(ys, sep) + y == y;
    } else {
      assert xs[0] in xs && ys[0] in ys;
      PeelSegment(xs, x, ys, y, sep);
      assert forall v | v in xs[1..] :: v in xs;
      assert forall v | v in ys[1..] :: v in ys;
      TerminatedSame(xs[1..], x, ys[1..], y, sep);
    }
  }

  // ---- Cursors ----

  function EncodeCursor(key: Bytes): Bytes {
    if key == [] then [] else [HexDigit(key[0] / 16), HexDigit(key[0] % 16)] + EncodeCursor(key[1..])
  }

  function UnhexDigit(d: byte): (n: Option<int>)
    ensures n.Some? ==> 0 <= n.value < 16
  {
    if 48 <= d <= 57 then Some(d - 48)
    else if 97 <= d <= 102 then Some(d - 87)
    else if 65 <= d <= 70 then Some(d - 55)
    else None
  }

  /** One byte from two digits. The parser the code uses also takes a plus sign and one digit. */
  function UnhexByte(hi: byte, lo: byte): Option<byte> {
    match UnhexDigit(lo)
    case None => None
    case Some(l) =>
      if hi == 43 then Some(l)
      else match UnhexDigit(hi)
        case None => None
        case Some(h) => Some(16 * h + l)
  }

  /** Decode pairs of hexadecimal digits; an odd length or a non-digit is refused. */
  function DecodeCursor(cursor: Bytes): Option<Bytes> {
    if cursor == [] then Some([])
    else if |cursor| == 1 then None
    else
      match UnhexByte(cursor[0], cursor[1])
      case None => None
      case Some(b) =>
        match DecodeCursor(cursor[2..])
        case None => None
        case Some(rest) => Some([b] + rest)
  }

  lemma UnhexHex(b: byte)
    ensures UnhexByte(HexDigit(b / 16), HexDigit(b % 16)) == Some(b)
  {
    assert forall n | 0 <= n < 16 :: UnhexDigit(HexDigit(n)) == Some(n);
    assert b == 16 * (b / 16) + b % 16;
  }

  lemma CursorDigits(key: Bytes, i: nat)
    requires i < |key| && |EncodeCursor(key[1..])| == 2 * |key[1..]|
    requires i > 0 ==> HasDigits(key[1..], i - 1)
    ensures HasDigits(key, i)
  {
    hide HexDigit;
    var rest := EncodeCursor(key[1..]);
    var pair := [HexDigit(key[0] / 16), HexDigit(key[0] % 16)];
    assert EncodeCursor(key) == pair + rest;
    if i > 0 {
      assert 2 * i == 2 + 2 * (i - 1);
      assert (pair + rest)[2 * i] == rest[2 * (i - 1)] && (pair + rest)[2 * i + 1] == rest[2 * (i - 1) + 1];
      assert key[1..][i - 1] == key[i];
    }
  }

  /** The i-th pair of digits is the i-th byte's. */
  predicate HasDigits(key: Bytes, i: nat)
    requires i < |key|
  {
    && 2 * i + 1 < |EncodeCursor(key)|
    && EncodeCursor(key)[2 * i] == HexDigit(key[i] / 16) && EncodeCursor(key)[2 * i + 1] == HexDigit(key[i] % 16)
  }

  /** Cursors are keys in lower-case hexadecimal, two digits a byte, and decode to what they encode. */
  lemma {:induction false} CursorRoundTrip(key: Bytes)
    ensures DecodeCursor(EncodeCursor(key)) == Some(key)
    ensures |EncodeCursor(key)| == 2 * |key|
    ensures forall i | 0 <= i < |key| :: HasDigits(key, i)
  {
    hide HasDigits;
    if key != [] {
      CursorRoundTrip(key[1..]);
      forall i | 0 <= i < |key| ensures HasDigits(key, i) { CursorDigits(key, i); }
      UnhexHex(key[0]);
      assert EncodeCursor(key)[2..] == EncodeCursor(key[1..]);
      assert key == [key[0]] + key[1..];
    }
  }
}
