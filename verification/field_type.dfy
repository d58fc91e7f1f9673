/** The backend-independent SQL type description: a `{base, flags}` pair,
    its packed identity, and the static table that ties each pair to a C++
    type and an SQL type name.  C++ `std::type_info` objects become the
    values of `CppType`; two typedefs that name the same C++ type give the
    same value, exactly as `typeid` does. */
module FieldTypeInfo {
  import opened Basics
  import opened Exceptions

  // ---------------------------------------------------------------------
  // Base types and flags
  // ---------------------------------------------------------------------

  /** The `Base` enumeration.  Every enumerator fits in a byte; -1 is the
      "not yet known" value a default-constructed type holds. */
  type BaseCode = b: int | -1 <= b < 256

  const UNKNOWN: BaseCode := -1
  const INTEGER: BaseCode := 0
  const REAL: BaseCode := 1
  const TEXT: BaseCode := 2
  const BLOB: BaseCode := 3
  const FIRST_UNUSED: BaseCode := 4
  /** The first backend-specific base type. */
  const DATETIME: BaseCode := FIRST_UNUSED
  // The remaining enumerators have no declared value; any distinct codes do.
  const DATE: BaseCode := 5
  const TIME: BaseCode := 6
  const ENUM: BaseCode := 7
  const SET: BaseCode := 8
  const NULL: BaseCode := 9
  const DECIMAL: BaseCode := 10
  const TIMESTAMP: BaseCode := 11
  const UNSUPPORTED: BaseCode := 12

  /** The `Flag` values, held in an `unsigned int`: single bits, combined
      with `|`. */
  const TF_DEFAULT: uint32 := 0
  const TF_UNSIGNED: uint32 := 1
  const TF_NULL: uint32 := 2
  const TF_FIRST_UNUSED: uint32 := 4

  datatype FieldType = FieldType(base: BaseCode, flags: uint32)

  /** `FieldType()`: unknown base, default flags. */
  function Default(): (t: FieldType)
    ensures t.base == UNKNOWN && t.flags == TF_DEFAULT
  {
    FieldType(UNKNOWN, TF_DEFAULT)
  }

  /** Bit `bit` (a power of two) is set in `f`. */
  predicate HasBit(f: nat, bit: nat)
    requires bit > 0
  {
    (f / bit) % 2 == 1
  }

  /** `a & b == a` on unsigned values: every bit set in `a` is set in `b`. */
  predicate FlagsWithin(a: nat, b: nat)
    decreases a
  {
    a == 0 || ((a % 2 == 0 || b % 2 == 1) && FlagsWithin(a / 2, b / 2))
  }

  /** Every flag set is within itself, and the empty set of flags is within
      any other. */
  lemma {:induction false} FlagsWithinReflexive(a: nat, b: nat)
    ensures FlagsWithin(a, a) && FlagsWithin(0, b)
    decreases a
  {
    if a != 0 {
      FlagsWithinReflexive(a / 2, b);
    }
  }

  /** Below `tf_FIRST_UNUSED` a flag set is just a choice of `tf_unsigned`
      and `tf_null`, two distinct single bits: `a & b == a` there means
      exactly that each generic flag set in `a` is also set in `b`. */
  lemma {:induction false} FlagsWithinGenericBits(a: nat, b: nat)
    requires a < TF_FIRST_UNUSED as nat && b < TF_FIRST_UNUSED as nat
    ensures FlagsWithin(a, b) <==>
              (HasBit(a, TF_UNSIGNED as nat) ==> HasBit(b, TF_UNSIGNED as nat))
              && (HasBit(a, TF_NULL as nat) ==> HasBit(b, TF_NULL as nat))
    ensures a == TF_DEFAULT as nat <==> !HasBit(a, TF_UNSIGNED as nat) && !HasBit(a, TF_NULL as nat)
  {
    FlagsWithinReflexive(0, b / 2);
    FlagsWithinReflexive(0, b / 4);
    assert FlagsWithin(a / 4, b / 4);
  }

  // ---------------------------------------------------------------------
  // Identity and ordering
  // ---------------------------------------------------------------------

  /** `(flags << 8) | base` in 32-bit unsigned arithmetic.  The shift drops
      the flags' top byte; the shifted value has a zero low byte, so or-ing
      in a base byte adds it; `-1` converts to all ones. */
  function ShiftOr(t: FieldType): (r: uint32)
    ensures t.base >= 0 && t.flags < 0x100_0000 ==> r == t.flags * 256 + t.base as int
    ensures t.base < 0 ==> r == 0xFFFF_FFFF
  {
    if t.base < 0 then 0xFFFF_FFFF
    else (t.flags * 256) % TWO_TO_32 + t.base as int
  }

  /** `id()` as written: the 32-bit value returned as an `unsigned short`,
      so everything above bit 15 is lost. */
  function Id(t: FieldType): (r: nat)
    ensures r < 0x1_0000
    ensures t.base >= 0 && t.flags < 256 ==> r == t.flags * 256 + t.base as int
  {
    ShiftOr(t) % 0x1_0000
  }

  /** A real base code with flags in the low byte survives `id()`. */
  lemma IdInjectiveOnBytes(a: FieldType, b: FieldType)
    requires a.base >= 0 && b.base >= 0 && a.flags < 256 && b.flags < 256
    ensures Id(a) == Id(b) <==> a == b
  {
  }

  /** Two types that differ only in flag bit 8 (the backend flag
      `tf_FIRST_UNUSED << 6`) get the same `id()`, so `==` as written calls
      them equal. */
  lemma IdLosesHighFlags()
    ensures Id(FieldType(INTEGER, 0x100)) == Id(FieldType(INTEGER, TF_DEFAULT))
  {
  }

  /** The identity with the truncation removed: the full 32-bit value. */
  function WideId(t: FieldType): (r: nat)
    ensures t.base >= 0 && t.flags < 256 ==> r == Id(t)
  {
    ShiftOr(t)
  }

  /** The wide identity tells apart every pair whose flags fit in the 24
      bits left above the base byte. */
  lemma WideIdInjective(a: FieldType, b: FieldType)
    requires a.base >= 0 && b.base >= 0 && a.flags < 0x100_0000 && b.flags < 0x100_0000
    ensures WideId(a) == WideId(b) <==> a == b
  {
  }

  /** `operator ==` as written: the truncated identities are equal. */
  predicate EqualAsWritten(a: FieldType, b: FieldType) {
    Id(a) == Id(b)
  }

  /** `operator !=` as written. */
  predicate NotEqualAsWritten(a: FieldType, b: FieldType) {
    Id(a) != Id(b)
  }

  /** `operator <` as written: an ordering for associative containers
      only, on the truncated identities. */
  predicate LessAsWritten(a: FieldType, b: FieldType) {
    Id(a) < Id(b)
  }

  /** What `id()` keeps of a type with a real base code: the base byte
      and the low byte of the flags, nothing more. */
  lemma {:induction false} IdKeepsLowFlagByte(t: FieldType)
    requires t.base >= 0
    ensures Id(t) == (t.flags % 256) * 256 + t.base as int
  {
    var q, r := t.flags / 256, t.flags % 256;
    var m := (t.flags * 256) % TWO_TO_32;
    assert t.flags * 256 == q * 0x1_0000 + r * 256;
    assert m % 0x1_0000 == r * 256 by {
      ModOfMultiple(t.flags * 256, q, r * 256);
    }
    assert Id(t) == (m + t.base as int) % 0x1_0000;
    ModAddSmall(m, r * 256, t.base as int);
  }

  /** `x % 2^32 % 2^16` of `q * 2^16 + s` is `s` when `s < 2^16`. */
  lemma ModOfMultiple(x: nat, q: nat, s: nat)
    requires x == q * 0x1_0000 + s && s < 0x1_0000
    ensures (x % TWO_TO_32) % 0x1_0000 == s
  {
    var k := x / TWO_TO_32;
    assert x % TWO_TO_32 == x - k * TWO_TO_32;
    assert x - k * TWO_TO_32 == (q - k * 0x1_0000) * 0x1_0000 + s;
  }

  /** Adding a value that stays below the next multiple of `2^16`. */
  lemma ModAddSmall(m: nat, s: nat, b: nat)
    requires m % 0x1_0000 == s && s + b < 0x1_0000
    ensures (m + b) % 0x1_0000 == s + b
  {
    var k := m / 0x1_0000;
    assert m == k * 0x1_0000 + s;
    assert m + b == k * 0x1_0000 + (s + b);
  }

  /** `==` as written holds exactly when the base codes agree and the
      flags agree in their low byte, so two types apart only in a flag at
      bit 8 or above compare equal. */
  lemma EqualAsWrittenIffLowByte(a: FieldType, b: FieldType)
    requires a.base >= 0 && b.base >= 0
    ensures EqualAsWritten(a, b) <==> a.base == b.base && a.flags % 256 == b.flags % 256
  {
    IdKeepsLowFlagByte(a);
    IdKeepsLowFlagByte(b);
  }

  /** The operators as written: `!=` is the opposite of `==`, and `<` a
      strict weak order whose equivalence is `==`. */
  lemma ComparisonsAgreeAsWritten(a: FieldType, b: FieldType)
    ensures NotEqualAsWritten(a, b) <==> !EqualAsWritten(a, b)
    ensures EqualAsWritten(a, b) <==> !LessAsWritten(a, b) && !LessAsWritten(b, a)
    ensures !(LessAsWritten(a, b) && LessAsWritten(b, a))
  {
  }

  /** The laws an associative container needs of the operators as
      written: `<` irreflexive and transitive, `==` an equivalence. */
  lemma OrderLawsAsWritten(a: FieldType, b: FieldType, c: FieldType)
    ensures !LessAsWritten(a, a) && EqualAsWritten(a, a)
    ensures LessAsWritten(a, b) && LessAsWritten(b, c) ==> LessAsWritten(a, c)
    ensures EqualAsWritten(a, b) && EqualAsWritten(b, c) ==> EqualAsWritten(a, c)
    ensures EqualAsWritten(a, b) ==> EqualAsWritten(b, a)
  {
  }

  /** `operator ==` with the truncation removed, comparing wide
      identities; this is what the rest of the model uses. */
  predicate Equal(a: FieldType, b: FieldType) {
    WideId(a) == WideId(b)
  }

  /** `operator !=` with the truncation removed. */
  predicate NotEqual(a: FieldType, b: FieldType) {
    WideId(a) != WideId(b)
  }

  /** `operator <` with the truncation removed. */
  predicate Less(a: FieldType, b: FieldType) {
    WideId(a) < WideId(b)
  }

  /** The corrected operators: `==` and `!=` are exact opposites, and `<`
      orders every pair strictly: exactly one of `a < b`, `a == b`,
      `b < a` holds. */
  lemma ComparisonsAgree(a: FieldType, b: FieldType)
    ensures NotEqual(a, b) <==> !Equal(a, b)
    ensures Equal(a, b) <==> !Less(a, b) && !Less(b, a)
    ensures !(Less(a, b) && Less(b, a))
  {
  }

  /** The corrected `<` is transitive and irreflexive, and `==` is an
      equivalence. */
  lemma OrderLaws(a: FieldType, b: FieldType, c: FieldType)
    ensures !Less(a, a) && Equal(a, a)
    ensures Less(a, b) && Less(b, c) ==> Less(a, c)
    ensures Equal(a, b) && Equal(b, c) ==> Equal(a, c)
    ensures Equal(a, b) ==> Equal(b, a)
  {
  }

  /** Where `id()` loses nothing (flags in the low byte) the operators as
      written and the corrected ones give the same answers. */
  lemma AsWrittenAgreesOnByteFlags(a: FieldType, b: FieldType)
    requires a.base >= 0 && b.base >= 0 && a.flags < 256 && b.flags < 256
    ensures EqualAsWritten(a, b) <==> Equal(a, b)
    ensures NotEqualAsWritten(a, b) <==> NotEqual(a, b)
    ensures LessAsWritten(a, b) <==> Less(a, b)
  {
  }

  /** On real base codes with flags below 2^24, `==` is structural
      equality of the pair, and the types with a flag at bit 8 or above
      stay apart from those without. */
  lemma EqualIsStructural(a: FieldType, b: FieldType)
    requires a.base >= 0 && b.base >= 0 && a.flags < 0x100_0000 && b.flags < 0x100_0000
    ensures Equal(a, b) <==> a == b
    ensures !Equal(FieldType(INTEGER, 0x100), FieldType(INTEGER, TF_DEFAULT))
  {
    WideIdInjective(a, b);
  }

  /** The base class's `quote_q()` and `escape_q()`: only text and blob
      values need quoting and escaping. */
  predicate QuoteQ(t: FieldType) {
    t.base == BLOB || t.base == TEXT
  }

  predicate EscapeQ(t: FieldType) {
    t.base == TEXT || t.base == BLOB
  }

  /** The two predicates never disagree, and neither looks at the flags. */
  lemma QuoteIffEscape(t: FieldType, f: uint32)
    ensures QuoteQ(t) <==> EscapeQ(t)
    ensures QuoteQ(t) <==> QuoteQ(t.(flags := f))
    ensures QuoteQ(FieldType(TEXT, f)) && QuoteQ(FieldType(BLOB, f))
    ensures !QuoteQ(FieldType(INTEGER, f)) && !QuoteQ(FieldType(DATE, f))
  {
  }

  // ---------------------------------------------------------------------
  // The C++ side of the table
  // ---------------------------------------------------------------------

  /** The distinct C++ types behind the `sql_*` typedefs: `sql_int` and
      `sql_mediumint` are both `int32_t`, `sql_double` and `sql_decimal`
      both `double`, `sql_enum`, `sql_char` and `sql_varchar` all
      `std::string`, the blobs all `String`, `sql_timestamp` and
      `sql_datetime` both `DateTime`. */
  datatype Cpp =
    | TinyInt | TinyIntUnsigned | Int16 | UInt16 | Int32 | UInt32 | Int64 | UInt64
    | Float | Double | StdString | String | Date | Time | DateTime | Set | Void

  /** A `type_info`: a plain type, its `Null<>` wrapper, or any other C++
      type, told apart by a number. */
  datatype CppType = Plain(t: Cpp) | NullOf(t: Cpp) | Other(n: nat)

  /** One `AnnotatedFT` row: SQL name, C++ type, base, flags, and whether it
      is the preferred row for its `{base, flags}` pair (the constructor's
      defaults are default flags and preferred). */
  datatype Aft = Aft(sqlName: string, cType: CppType, base: BaseCode, flags: uint32, bestGuess: bool)

  /** `tf_null | tf_unsigned`: disjoint bits, so the or is their sum. */
  const TF_NULL_UNSIGNED: uint32 := TF_NULL + TF_UNSIGNED

  /** Row `i` of the `types_` table, in source order: the 28 NOT NULL
      rows, then their nullable counterparts. */
  function Row(i: nat): Aft
    requires i < 56
  {
    if i < 28 then NotNullRow(i) else NullableRow(i - 28)
  }

  /** Rows 0 to 27 of `types_`. */
  function NotNullRow(i: nat): Aft
    requires i < 28
  {
    match i
    case 0 => Aft("TINYINT NOT NULL", Plain(TinyInt), INTEGER, TF_DEFAULT, false)
    case 1 => Aft("TINYINT UNSIGNED NOT NULL", Plain(TinyIntUnsigned), INTEGER, TF_UNSIGNED, false)
    case 2 => Aft("SMALLINT NOT NULL", Plain(Int16), INTEGER, TF_DEFAULT, false)
    case 3 => Aft("SMALLINT UNSIGNED NOT NULL", Plain(UInt16), INTEGER, TF_UNSIGNED, false)
    case 4 => Aft("MEDIUMINT NOT NULL", Plain(Int32), INTEGER, TF_UNSIGNED, false)
    case 5 => Aft("MEDIUMINT UNSIGNED NOT NULL", Plain(UInt32), INTEGER, TF_UNSIGNED, false)
    case 6 => Aft("INT NOT NULL", Plain(Int32), INTEGER, TF_DEFAULT, true)
    case 7 => Aft("INT UNSIGNED NOT NULL", Plain(UInt32), INTEGER, TF_UNSIGNED, true)
    case 8 => Aft("BIGINT NOT NULL", Plain(Int64), INTEGER, TF_DEFAULT, false)
    case 9 => Aft("BIGINT UNSIGNED NOT NULL", Plain(UInt64), INTEGER, TF_UNSIGNED, false)
    case 10 => Aft("FLOAT NOT NULL", Plain(Float), REAL, TF_DEFAULT, false)
    case 11 => Aft("FLOAT UNSIGNED NOT NULL", Plain(Float), REAL, TF_UNSIGNED, false)
    case 12 => Aft("DOUBLE NOT NULL", Plain(Double), REAL, TF_DEFAULT, true)
    case 13 => Aft("DOUBLE UNSIGNED NOT NULL", Plain(Double), REAL, TF_UNSIGNED, true)
    case 14 => Aft("DECIMAL NOT NULL", Plain(Double), DECIMAL, TF_DEFAULT, true)
    case 15 => Aft("TIMESTAMP NOT NULL", Plain(DateTime), TIMESTAMP, TF_DEFAULT, true)
    case 16 => Aft("DATE NOT NULL", Plain(Date), DATE, TF_DEFAULT, true)
    case 17 => Aft("TIME NOT NULL", Plain(Time), TIME, TF_DEFAULT, true)
    case 18 => Aft("DATETIME NOT NULL", Plain(DateTime), DATETIME, TF_DEFAULT, true)
    case 19 => Aft("ENUM NOT NULL", Plain(StdString), ENUM, TF_DEFAULT, true)
    case 20 => Aft("SET NOT NULL", Plain(Set), SET, TF_DEFAULT, true)
    case 21 => Aft("TINYBLOB NOT NULL", Plain(String), BLOB, TF_DEFAULT, false)
    case 22 => Aft("MEDIUMBLOB NOT NULL", Plain(String), BLOB, TF_DEFAULT, false)
    case 23 => Aft("LONGBLOB NOT NULL", Plain(String), BLOB, TF_DEFAULT, false)
    case 24 => Aft("BLOB NOT NULL", Plain(String), BLOB, TF_DEFAULT, true)
    case 25 => Aft("VARCHAR NOT NULL", Plain(StdString), TEXT, TF_DEFAULT, true)
    case 26 => Aft("CHAR NOT NULL", Plain(StdString), TEXT, TF_DEFAULT, false)
    case _ => Aft("NULL NOT NULL", Plain(Void), NULL, TF_DEFAULT, true)
  }

  /** Rows 28 to 55 of `types_`. */
  function NullableRow(i: nat): Aft
    requires i < 28
  {
    match i
    case 0 => Aft("TINYINT NULL", NullOf(TinyInt), INTEGER, TF_NULL, false)
    case 1 => Aft("TINYINT UNSIGNED NULL", NullOf(TinyIntUnsigned), INTEGER, TF_NULL_UNSIGNED, false)
    case 2 => Aft("SMALLINT NULL", NullOf(Int16), INTEGER, TF_NULL, false)
    case 3 => Aft("SMALLINT UNSIGNED NULL", NullOf(UInt16), INTEGER, TF_NULL_UNSIGNED, false)
    case 4 => Aft("MEDIUMINT NULL", NullOf(Int32), INTEGER, TF_NULL, false)
    case 5 => Aft("MEDIUMINT UNSIGNED NULL", NullOf(UInt32), INTEGER, TF_NULL_UNSIGNED, false)
    case 6 => Aft("INT NULL", NullOf(Int32), INTEGER, TF_NULL, true)
    case 7 => Aft("INT UNSIGNED NULL", NullOf(UInt32), INTEGER, TF_NULL_UNSIGNED, true)
    case 8 => Aft("BIGINT NULL", NullOf(Int64), INTEGER, TF_NULL, false)
    case 9 => Aft("BIGINT UNSIGNED NULL", NullOf(UInt64), INTEGER, TF_NULL_UNSIGNED, false)
    case 10 => Aft("FLOAT NULL", NullOf(Float), REAL, TF_NULL, false)
    case 11 => Aft("FLOAT UNSIGNED NULL", NullOf(Float), REAL, TF_NULL_UNSIGNED, false)
    case 12 => Aft("DOUBLE NULL", NullOf(Double), REAL, TF_NULL, true)
    case 13 => Aft("DOUBLE UNSIGNED NULL", NullOf(Double), REAL, TF_NULL_UNSIGNED, true)
    case 14 => Aft("DECIMAL NULL", NullOf(Double), DECIMAL, TF_NULL, true)
    case 15 => Aft("TIMESTAMP NULL", NullOf(DateTime), TIMESTAMP, TF_DEFAULT, true)
    case 16 => Aft("DATE NULL", NullOf(Date), DATE, TF_NULL, true)
    case 17 => Aft("TIME NULL", NullOf(Time), TIME, TF_NULL, true)
    case 18 => Aft("DATETIME NULL", NullOf(DateTime), DATETIME, TF_NULL, true)
    case 19 => Aft("ENUM NULL", NullOf(StdString), ENUM, TF_NULL, true)
    case 20 => Aft("SET NULL", NullOf(Set), SET, TF_NULL, true)
    case 21 => Aft("TINYBLOB NULL", NullOf(String), BLOB, TF_NULL, false)
    case 22 => Aft("MEDIUMBLOB NULL", NullOf(String), BLOB, TF_NULL, false)
    case 23 => Aft("LONGBLOB NULL", NullOf(String), BLOB, TF_NULL, false)
    case 24 => Aft("BLOB NULL", NullOf(String), BLOB, TF_NULL, true)
    case 25 => Aft("VARCHAR NULL", NullOf(StdString), TEXT, TF_NULL, true)
    case 26 => Aft("CHAR NULL", NullOf(StdString), TEXT, TF_NULL, false)
    case _ => Aft("NULL NOT NULL", NullOf(Void), NULL, TF_DEFAULT, true)
  }

  /** The rows in order. */
  function Rows(): (t: seq<Aft>)
    ensures |t| == 56 && forall i :: 0 <= i < 56 ==> t[i] == Row(i)
  {
    seq(56, n requires 0 <= n < 56 => Row(n))
  }

  /** The `types_` table. */
  const TYPES: seq<Aft> := Rows()


  // ---------------------------------------------------------------------
  // Reverse index: C++ type -> table row
  // ---------------------------------------------------------------------

  /** The index a map filled in table order ends up holding for `k`: the
      last row `i` with `included[i]` whose key is `k`, if there is one. */
  function LastIndex(keys: seq<CppType>, included: seq<bool>, k: CppType): (r: Nullable<nat>)
    requires |keys| == |included|
    ensures r.Ptr? ==> r.value < |keys| && included[r.value] && keys[r.value] == k
    ensures r.Ptr? ==> forall j :: r.value < j < |keys| ==> !included[j] || keys[j] != k
    ensures r.Null? ==> forall j :: 0 <= j < |keys| ==> !included[j] || keys[j] != k
    decreases |keys|
  {
    if |keys| == 0 then Null
    else if included[|keys| - 1] && keys[|keys| - 1] == k then Ptr(|keys| - 1)
    else LastIndex(keys[..|keys| - 1], included[..|keys| - 1], k)
  }

  /** Building the index the way both type maps' constructors do: one
      assignment `map_[key] = i` per included row, in table order, so a
      later row overwrites an earlier one. */
  method BuildIndex(keys: seq<CppType>, included: seq<bool>) returns (m: map<CppType, nat>)
    requires |keys| == |included|
    ensures forall k :: k in m <==> LastIndex(keys, included, k).Ptr?
    ensures forall k :: k in m ==> m[k] == LastIndex(keys, included, k).value
  {
    m := map[];
    var i := 0;
    while i < |keys|
      invariant 0 <= i <= |keys|
      invariant forall k :: k in m <==> LastIndex(keys[..i], included[..i], k).Ptr?
      invariant forall k :: k in m ==> m[k] == LastIndex(keys[..i], included[..i], k).value
    {
      assert keys[..i + 1][..i] == keys[..i] && included[..i + 1][..i] == included[..i];
      if included[i] {
        m := m[keys[i] := i];
      }
      i := i + 1;
    }
    assert keys[..i] == keys && included[..i] == included;
  }

  /** The C++ type column of the table. */
  function TypeKeys(): (k: seq<CppType>)
    ensures |k| == 56 && forall i :: 0 <= i < 56 ==> k[i] == Row(i).cType
  {
    seq(56, n requires 0 <= n < 56 => Row(n).cType)
  }

  /** Every row takes part in `TypeMap`. */
  function AllRows(n: nat): (r: seq<bool>)
    ensures |r| == n && forall i :: 0 <= i < n ==> r[i]
  {
    seq(n, i => true)
  }

  const LOOKUP_FAILED_PREFIX: string := "Failed to find libtabula type info for "

  /** `TypeMap::operator[](ti)`: the row the map holds for `ti`, or
      `TypeLookupFailed` naming the type (`name` is `ti.name()`, whose text
      the C++ implementation chooses). */
  function TypeMapLookup(ti: CppType, name: string): (r: Outcome<nat>)
    ensures r.Returned? <==> exists i :: 0 <= i < 56 && Row(i).cType == ti
    ensures r.Returned? ==> r.value < 56 && Row(r.value).cType == ti
    ensures r.Returned? ==> forall j :: r.value < j < 56 ==> Row(j).cType != ti
    ensures r.Thrown? ==> r.error == TypeLookupFailed(LOOKUP_FAILED_PREFIX + name)
  {
    var found := LastIndex(TypeKeys(), AllRows(56), ti);
    if found.Ptr? then Returned(found.value)
    else Thrown(TypeLookupFailed(LOOKUP_FAILED_PREFIX + name))
  }

  /** `FieldType(const type_info&)`: copy the base and flags of the row the
      map holds for the type. */
  function FromTypeInfo(ti: CppType, name: string): (r: Outcome<FieldType>)
    ensures r.Returned? <==> TypeMapLookup(ti, name).Returned?
    ensures r.Returned? <==> exists i :: 0 <= i < 56 && Row(i).cType == ti
    ensures r.Returned? ==> exists i :: 0 <= i < 56 && Row(i).cType == ti
                                        && (forall j :: i < j < 56 ==> Row(j).cType != ti)
                                        && r.value == FieldType(Row(i).base, Row(i).flags)
    ensures r.Thrown? ==> r == Thrown(TypeLookupFailed(LOOKUP_FAILED_PREFIX + name))
  {
    var i :- TypeMapLookup(ti, name);
    Returned(FieldType(Row(i).base, Row(i).flags))
  }

  /** Last row wins: `float` maps to the FLOAT UNSIGNED row and `double` to
      DECIMAL, because those rows come after FLOAT and DOUBLE; `int32_t`
      maps to INT, not to the MEDIUMINT row before it. */
  lemma TypeMapLastRowWins(name: string)
    ensures TypeMapLookup(Plain(Float), name) == Returned(11)
    ensures TypeMapLookup(Plain(Double), name) == Returned(14)
    ensures TypeMapLookup(Plain(Int32), name) == Returned(6)
    ensures FromTypeInfo(Plain(Float), name) == Returned(FieldType(REAL, TF_UNSIGNED))
  {
    NoRowAfter(Plain(Float), 11);
    LastRowFor(Plain(Float), 11, name);
    NoRowAfter(Plain(Double), 14);
    LastRowFor(Plain(Double), 14, name);
    NoRowAfter(Plain(Int32), 6);
    LastRowFor(Plain(Int32), 6, name);
  }

  /** The rows after `i` that carry `c`, for the three types above: none. */
  lemma NoRowAfter(c: CppType, i: nat)
    requires (c, i) in {(Plain(Float), 11), (Plain(Double), 14), (Plain(Int32), 6)}
    ensures forall j :: i < j < 56 ==> Row(j).cType != c
  {
    forall j | i < j < 56 ensures Row(j).cType != c {
    }
  }

  /** Row `i` is the one the map holds for `c` when it carries `c` and no
      later row does. */
  lemma LastRowFor(c: CppType, i: nat, name: string)
    requires i < 56 && Row(i).cType == c
    requires forall j :: i < j < 56 ==> Row(j).cType != c
    ensures TypeMapLookup(c, name) == Returned(i)
    ensures FromTypeInfo(c, name) == Returned(FieldType(Row(i).base, Row(i).flags))
  {
  }

  /** The row of the plain type `c`. */
  function PlainRow(c: Cpp): (i: nat)
    ensures i < 56 && Row(i).cType == Plain(c)
  {
    match c
    case TinyInt => 0 case TinyIntUnsigned => 1 case Int16 => 2 case UInt16 => 3
    case Int32 => 6 case UInt32 => 7 case Int64 => 8 case UInt64 => 9
    case Float => 10 case Double => 12 case StdString => 25 case String => 24
    case Date => 16 case Time => 17 case DateTime => 18 case Set => 20 case Void => 27
  }

  /** The row of `Null<c>`. */
  function NullRow(c: Cpp): (i: nat)
    ensures i < 56 && Row(i).cType == NullOf(c)
  {
    match c
    case TinyInt => 28 case TinyIntUnsigned => 29 case Int16 => 30 case UInt16 => 31
    case Int32 => 34 case UInt32 => 35 case Int64 => 36 case UInt64 => 37
    case Float => 38 case Double => 40 case StdString => 53 case String => 52
    case Date => 44 case Time => 45 case DateTime => 46 case Set => 48 case Void => 55
  }

  /** A C++ type missing from the table is a lookup failure, while every
      plain and nullable type behind an `sql_*` typedef is found. */
  lemma LookupCoversTable(n: nat, c: Cpp, name: string)
    ensures FromTypeInfo(Other(n), name) == Thrown(TypeLookupFailed(LOOKUP_FAILED_PREFIX + name))
    ensures TypeMapLookup(Plain(c), name).Returned? && TypeMapLookup(NullOf(c), name).Returned?
  {
    LookupMissesOther(n, name);
    LookupFindsRow(PlainRow(c), name);
    LookupFindsRow(NullRow(c), name);
  }

  /** No row carries a type outside the table's C++ types. */
  lemma LookupMissesOther(n: nat, name: string)
    ensures TypeMapLookup(Other(n), name).Thrown?
  {
    forall j | 0 <= j < 56 ensures Row(j).cType != Other(n) {
      RowTypeIsKnown(j);
    }
  }

  /** The type of any row is found. */
  lemma LookupFindsRow(i: nat, name: string)
    requires i < 56
    ensures TypeMapLookup(Row(i).cType, name).Returned?
  {
  }

  // ---------------------------------------------------------------------
  // annotate(): table row for a {base, flags} pair
  // ---------------------------------------------------------------------

  /** A row `annotate()` may fall back on: same base, no flag we lack. */
  predicate Compatible(e: Aft, t: FieldType) {
    e.base == t.base && FlagsWithin(e.flags, t.flags)
  }

  /** A row `annotate()` takes at once: same base, same flags, preferred. */
  predicate Preferred(e: Aft, t: FieldType) {
    e.base == t.base && e.flags == t.flags && e.bestGuess
  }

  lemma PreferredIsCompatible(e: Aft, t: FieldType)
    requires Preferred(e, t)
    ensures Compatible(e, t)
  {
    FlagsWithinReflexive(e.flags, 0);
  }

  /** The first preferred row. */
  function FirstPreferred(table: seq<Aft>, t: FieldType): (r: Nullable<nat>)
    ensures r.Ptr? ==> r.value < |table| && Preferred(table[r.value], t)
    ensures r.Ptr? ==> forall j :: 0 <= j < r.value ==> !Preferred(table[j], t)
    ensures r.Null? ==> forall j :: 0 <= j < |table| ==> !Preferred(table[j], t)
  {
    if |table| == 0 then Null
    else if Preferred(table[0], t) then Ptr(0)
    else match FirstPreferred(table[1..], t)
      case Null => Null
      case Ptr(i) => Ptr(i + 1)
  }

  /** The last compatible row. */
  function LastCompatible(table: seq<Aft>, t: FieldType): (r: Nullable<nat>)
    ensures r.Ptr? ==> r.value < |table| && Compatible(table[r.value], t)
    ensures r.Ptr? ==> forall j :: r.value < j < |table| ==> !Compatible(table[j], t)
    ensures r.Null? ==> forall j :: 0 <= j < |table| ==> !Compatible(table[j], t)
    decreases |table|
  {
    if |table| == 0 then Null
    else if Compatible(table[|table| - 1], t) then Ptr(|table| - 1)
    else LastCompatible(table[..|table| - 1], t)
  }

  const NOT_INITTED_MESSAGE: string := "FieldType::annotate() called before object fully initted"

  /** The text of `annotate()`'s failure for a pair with no row. */
  function NoRowMessage(t: FieldType): string {
    "Failed to find C++ and SQL type info for libtabula type {"
      + IntToString(t.base as int) + "," + NatToString(t.flags as int) + "}"
  }

  /** `annotate()`: an unsupported base is an error; otherwise the first
      preferred row wins, and failing that the last compatible one. */
  function Annotate(table: seq<Aft>, t: FieldType): (r: Outcome<nat>)
    ensures t.base == UNSUPPORTED ==> r == Thrown(TypeLookupFailed(NOT_INITTED_MESSAGE))
    ensures r.Returned? ==> r.value < |table| && Compatible(table[r.value], t)
    ensures r.Returned? && Preferred(table[r.value], t) ==>
              forall j :: 0 <= j < r.value ==> !Preferred(table[j], t)
    ensures r.Returned? && !Preferred(table[r.value], t) ==>
              (forall j :: 0 <= j < |table| ==> !Preferred(table[j], t))
              && forall j :: r.value < j < |table| ==> !Compatible(table[j], t)
    ensures (exists j :: 0 <= j < |table| && Preferred(table[j], t)) && t.base != UNSUPPORTED ==>
              r.Returned? && Preferred(table[r.value], t)
    ensures r.Thrown? <==> t.base == UNSUPPORTED || forall j :: 0 <= j < |table| ==> !Compatible(table[j], t)
    ensures r.Thrown? && t.base != UNSUPPORTED ==> r.error == TypeLookupFailed(NoRowMessage(t))
  {
    if t.base == UNSUPPORTED then Thrown(TypeLookupFailed(NOT_INITTED_MESSAGE))
    else match FirstPreferred(table, t)
      case Ptr(i) => PreferredIsCompatible(table[i], t); Returned(i)
      case Null =>
        match LastCompatible(table, t)
        case Ptr(i) => Returned(i)
        case Null => Thrown(TypeLookupFailed(NoRowMessage(t)))
  }

  /** The scan `annotate()` performs: one pass that remembers the latest
      compatible row in `guess` and returns at the first preferred one. */
  method AnnotateScan(table: seq<Aft>, t: FieldType) returns (r: Outcome<nat>)
    ensures r == Annotate(table, t)
  {
    if t.base == UNSUPPORTED {
      return Thrown(TypeLookupFailed(NOT_INITTED_MESSAGE));
    }
    var guess := -1;
    var i := 0;
    while i < |table|
      invariant 0 <= i <= |table|
      invariant forall j :: 0 <= j < i ==> !Preferred(table[j], t)
      invariant guess == (match LastCompatible(table[..i], t) case Ptr(g) => g case Null => -1)
    {
      assert table[..i + 1][..i] == table[..i];
      var cand := table[i];
      if t.base == cand.base {
        if t.flags == cand.flags {
          FlagsWithinReflexive(t.flags, 0);
          guess := i;
          if cand.bestGuess {
            return Returned(i);
          }
        } else if FlagsWithin(cand.flags, t.flags) {
          guess := i;
        }
      }
      i := i + 1;
    }
    assert table[..i] == table;
    if guess >= 0 {
      r := Returned(guess);
    } else {
      r := Thrown(TypeLookupFailed(NoRowMessage(t)));
    }
  }

  /** Every type obtained from a C++ type can be annotated: its own row is
      compatible with it, so `annotate()` never throws for it. */
  lemma FromTypeInfoAnnotates(ti: CppType, name: string)
    requires FromTypeInfo(ti, name).Returned?
    ensures Annotate(TYPES, FromTypeInfo(ti, name).value).Returned?
  {
    var t := FromTypeInfo(ti, name).value;
    var i :| 0 <= i < 56 && Row(i).cType == ti && t == FieldType(Row(i).base, Row(i).flags);
    assert TYPES[i] == Row(i);
    FlagsWithinReflexive(t.flags, 0);
    assert Compatible(TYPES[i], t);
    RowBaseIsKnown(i);
  }

  /** The mapping is lossy: `float` becomes `{real, unsigned}`, whose
      preferred row is DOUBLE UNSIGNED, so its `c_type()` is `double`. */
  lemma AnnotateWidensFloat()
    ensures Annotate(TYPES, FieldType(REAL, TF_UNSIGNED)) == Returned(13)
    ensures TYPES[13].cType == Plain(Double)
  {
    var t := FieldType(REAL, TF_UNSIGNED);
    assert Preferred(TYPES[13], t);
    forall j | 0 <= j < 13 ensures !Preferred(TYPES[j], t) {
      assert TYPES[j] == Row(j);
    }
  }

  /** The plain integer pair comes back as the INT row, not the earlier
      TINYINT, SMALLINT or BIGINT rows that are not preferred. */
  lemma AnnotateInteger()
    ensures Annotate(TYPES, FieldType(INTEGER, TF_DEFAULT)) == Returned(6)
  {
    var t := FieldType(INTEGER, TF_DEFAULT);
    assert Preferred(TYPES[6], t);
    forall j | 0 <= j < 6 ensures !Preferred(TYPES[j], t) {
      assert TYPES[j] == Row(j);
    }
  }

  /** With no preferred row, the last compatible one is taken: a nullable
      timestamp falls back on the TIMESTAMP NULL row, whose flags lack
      `tf_null`. */
  lemma AnnotateFallback()
    ensures Annotate(TYPES, FieldType(TIMESTAMP, TF_NULL)) == Returned(43)
  {
    var t := FieldType(TIMESTAMP, TF_NULL);
    forall j | 0 <= j < |TYPES| ensures !Preferred(TYPES[j], t) {
      assert TYPES[j] == Row(j);
    }
    assert Compatible(TYPES[43], t);
    forall j | 43 < j < |TYPES| ensures !Compatible(TYPES[j], t) {
      assert TYPES[j] == Row(j);
    }
  }

  /** A default-constructed type matches no row. */
  lemma AnnotateDefaultFails()
    ensures Annotate(TYPES, Default()).Thrown?
  {
    var t := Default();
    forall j | 0 <= j < |TYPES| ensures !Compatible(TYPES[j], t) {
      RowBaseIsKnown(j);
    }
  }

  /** Every row's C++ type is one of the `sql_*` types or its `Null`. */
  lemma RowTypeIsKnown(j: nat)
    requires j < 56
    ensures !Row(j).cType.Other?
  {
  }

  /** Every row has a real, supported base code. */
  lemma RowBaseIsKnown(j: nat)
    requires j < 56
    ensures 0 <= TYPES[j].base != UNSUPPORTED
  {
    assert TYPES[j] == Row(j);
  }
}
