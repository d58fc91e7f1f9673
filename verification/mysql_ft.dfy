/** The MySQL refinement of the field type: the C API type codes, their
    mapping onto base types, the MySQL type table, the index from C++ types
    back into it, and the quoting and escaping rules.  The table's DECIMAL
    rows depend on the C API version, which is a parameter. */
module MySQLFieldTypes {
  import opened Basics
  import opened Exceptions
  import opened FieldTypeInfo

  /** `enum_field_types`: the C API column type codes the switch lists. */
  datatype CType =
    | Decimal | NewDecimal | Tiny | Short | Int24 | Long | LongLong | Float | Double
    | Null | Date | NewDate | Year | Time | Time2 | DateTime | DateTime2
    | Timestamp | Timestamp2 | Enum | Set | Blob | TinyBlob | MediumBlob | LongBlob
    | VarChar | VarString | String | Bit | Geometry

  // ---------------------------------------------------------------------
  // Flags
  // ---------------------------------------------------------------------

  /** `2^k`. */
  function Pow2(k: nat): (r: nat)
    ensures r >= 1
  {
    if k == 0 then 1 else 2 * Pow2(k - 1)
  }

  /** The MySQL-specific flags from `MYSQL_FIELD.flags`, in declaration
      order: auto_increment, binary, blob, enumeration, multiple_key,
      no_default, primary_key, set_type, timestamp, unique_key, zerofill. */
  const MYSQL_FLAGS: seq<uint32> := [4, 8, 16, 32, 64, 128, 256, 512, 1024, 2048, 4096]

  /** Each MySQL flag is `tf_FIRST_UNUSED << k` for its position `k`, so
      they are distinct single bits, all clear of `tf_unsigned` and
      `tf_null`. */
  lemma MySQLFlagsAreFreshBits()
    ensures forall k :: 0 <= k < |MYSQL_FLAGS| ==> MYSQL_FLAGS[k] == TF_FIRST_UNUSED * Pow2(k)
    ensures forall i, j :: 0 <= i < j < |MYSQL_FLAGS| ==> MYSQL_FLAGS[i] < MYSQL_FLAGS[j]
    ensures forall k :: 0 <= k < |MYSQL_FLAGS| ==>
              MYSQL_FLAGS[k] >= TF_FIRST_UNUSED
              && !HasBit(MYSQL_FLAGS[k], TF_UNSIGNED) && !HasBit(MYSQL_FLAGS[k], TF_NULL)
  {
    forall k | 0 <= k < |MYSQL_FLAGS|
      ensures MYSQL_FLAGS[k] == TF_FIRST_UNUSED * Pow2(k)
      ensures !HasBit(MYSQL_FLAGS[k], TF_UNSIGNED) && !HasBit(MYSQL_FLAGS[k], TF_NULL)
    {
      Pow2Small(k);
      ClearOfGenericBits(Pow2(k));
    }
    forall i, j | 0 <= i < j < |MYSQL_FLAGS| ensures MYSQL_FLAGS[i] < MYSQL_FLAGS[j] {
      Pow2Small(i);
      Pow2Small(j);
      Pow2Increasing(i, j);
    }
  }

  lemma {:induction false} Pow2Increasing(i: nat, j: nat)
    requires i < j
    ensures Pow2(i) < Pow2(j)
    decreases j
  {
    if i < j - 1 {
      Pow2Increasing(i, j - 1);
    }
  }

  /** A multiple of `tf_FIRST_UNUSED` has neither generic bit set. */
  lemma ClearOfGenericBits(m: nat)
    ensures !HasBit(TF_FIRST_UNUSED * m, TF_UNSIGNED) && !HasBit(TF_FIRST_UNUSED * m, TF_NULL)
  {
    assert (4 * m) / 1 == 4 * m && (4 * m) / 2 == 2 * m;
  }

  /** `2^k` for the positions of the MySQL flags. */
  lemma Pow2Small(k: nat)
    requires k <= 10
    ensures Pow2(k) == [1, 2, 4, 8, 16, 32, 64, 128, 256, 512, 1024][k]
  {
    if k > 0 {
      Pow2Small(k - 1);
    }
  }

  /** The flags of the `(type, is_unsigned, is_null)` constructor:
      `tf_default | (is_null ? tf_null : 0) | (is_unsigned ? tf_unsigned : 0)`;
      the bits are disjoint, so the ors are sums. */
  function ComposeFlags(isUnsigned: bool, isNull: bool): (f: uint32)
    ensures f < TF_FIRST_UNUSED
  {
    TF_DEFAULT + (if isNull then TF_NULL else 0) + (if isUnsigned then TF_UNSIGNED else 0)
  }

  /** `MySQLFieldTypeInfo::is_default()`. */
  predicate IsDefault(flags: uint32) {
    flags == TF_DEFAULT
  }

  /** `MySQLFieldTypeInfo::is_null()`. */
  predicate IsNull(flags: uint32) {
    HasBit(flags, TF_NULL)
  }

  /** `MySQLFieldTypeInfo::is_unsigned()`. */
  predicate IsUnsigned(flags: uint32) {
    HasBit(flags, TF_UNSIGNED)
  }

  /** The flag predicates read back exactly what the constructor put in. */
  lemma ComposeFlagsRoundTrip(isUnsigned: bool, isNull: bool)
    ensures IsUnsigned(ComposeFlags(isUnsigned, isNull)) == isUnsigned
    ensures IsNull(ComposeFlags(isUnsigned, isNull)) == isNull
    ensures IsDefault(ComposeFlags(isUnsigned, isNull)) <==> !isUnsigned && !isNull
  {
  }

  /** Conversely, flags made of the two generic bits are rebuilt from
      their predicates. */
  lemma FlagsFromPredicates(flags: uint32)
    requires flags < TF_FIRST_UNUSED
    ensures ComposeFlags(IsUnsigned(flags), IsNull(flags)) == flags
  {
  }

  // ---------------------------------------------------------------------
  // C API type -> base type
  // ---------------------------------------------------------------------

  /** The version from which the switch lists `MYSQL_TYPE_NEWDATE`. */
  const NEWDATE_VERSION: nat := 50000

  /** `MySQLFieldType::base_type(t)`.  Without a case for `t` the function
      runs off its end, so a C API too old to list NEWDATE must not pass it. */
  function BaseOf(t: CType, version: nat): (b: BaseCode)
    requires t != NewDate || version >= NEWDATE_VERSION
    ensures b == INTEGER <==> t in {Tiny, Short, Int24, Long, LongLong}
    ensures b == REAL <==> t in {Decimal, NewDecimal, CType.Float, CType.Double}
    ensures b == DATE <==> t in {CType.Date, NewDate, Year}
    ensures b == TIME <==> t in {CType.Time, Time2}
    ensures b == DATETIME <==> t in {CType.DateTime, DateTime2, Timestamp, Timestamp2}
    ensures b == BLOB <==> t in {Blob, TinyBlob, MediumBlob, LongBlob}
    ensures b == TEXT <==> t in {VarChar, VarString, CType.String}
    ensures b == UNSUPPORTED <==> t in {Bit, Geometry}
    ensures b == NULL <==> t == CType.Null
    ensures b == ENUM <==> t == Enum
    ensures b == SET <==> t == CType.Set
  {
    match t
    case Null => NULL
    case Tiny | Short | Int24 | Long | LongLong => INTEGER
    case Decimal | NewDecimal | Float | Double => REAL
    case Date | NewDate | Year => DATE
    case Time | Time2 => TIME
    case DateTime | DateTime2 | Timestamp | Timestamp2 => DATETIME
    case Enum => ENUM
    case Set => SET
    case Blob | TinyBlob | MediumBlob | LongBlob => BLOB
    case VarChar | VarString | String => TEXT
    case Bit | Geometry => UNSUPPORTED
  }

  /** `MySQLFieldType(t, is_unsigned, is_null)`. */
  function FromCType(t: CType, isUnsigned: bool, isNull: bool, version: nat): (r: FieldType)
    requires t != NewDate || version >= NEWDATE_VERSION
    ensures r.base == BaseOf(t, version)
    ensures IsUnsigned(r.flags) == isUnsigned && IsNull(r.flags) == isNull
    ensures IsDefault(r.flags) <==> !isUnsigned && !isNull
  {
    ComposeFlagsRoundTrip(isUnsigned, isNull);
    FieldType(BaseOf(t, version), ComposeFlags(isUnsigned, isNull))
  }

  // ---------------------------------------------------------------------
  // The MySQL type table
  // ---------------------------------------------------------------------

  /** One `MySQLFieldTypeInfo`: SQL name, C++ type, C API type, flags. */
  datatype Info = Info(sqlName: string, cType: CppType, apiType: CType, flags: uint32)

  /** The version from which DECIMAL columns are `MYSQL_TYPE_NEWDECIMAL`. */
  const NEWDECIMAL_VERSION: nat := 50001

  function DecimalType(version: nat): CType {
    if version >= NEWDECIMAL_VERSION then NewDecimal else Decimal
  }

  /** Row `i` of `MySQLFieldType::types`, in source order. */
  function MRow(i: nat, version: nat): Info
    requires i < 56
  {
    if i < 28 then MNotNullRow(i, version) else MNullableRow(i - 28, version)
  }

  /** Rows 0 to 27 of `types[]`: the NOT NULL forms. */
  function MNotNullRow(i: nat, version: nat): Info
    requires i < 28
  {
    match i
    case 0 => Info("DECIMAL NOT NULL", Plain(Cpp.Double), DecimalType(version), TF_DEFAULT)
    case 1 => Info("TINYINT NOT NULL", Plain(TinyInt), Tiny, TF_DEFAULT)
    case 2 => Info("TINYINT UNSIGNED NOT NULL", Plain(TinyIntUnsigned), Tiny, TF_UNSIGNED)
    case 3 => Info("SMALLINT NOT NULL", Plain(Int16), Short, TF_DEFAULT)
    case 4 => Info("SMALLINT UNSIGNED NOT NULL", Plain(UInt16), Short, TF_UNSIGNED)
    case 5 => Info("INT NOT NULL", Plain(Int32), Long, TF_DEFAULT)
    case 6 => Info("INT UNSIGNED NOT NULL", Plain(UInt32), Long, TF_UNSIGNED)
    case 7 => Info("FLOAT NOT NULL", Plain(Cpp.Float), CType.Float, TF_DEFAULT)
    case 8 => Info("FLOAT UNSIGNED NOT NULL", Plain(Cpp.Float), CType.Float, TF_UNSIGNED)
    case 9 => Info("DOUBLE NOT NULL", Plain(Cpp.Double), CType.Double, TF_DEFAULT)
    case 10 => Info("DOUBLE UNSIGNED NOT NULL", Plain(Cpp.Double), CType.Double, TF_UNSIGNED)
    case 11 => Info("NULL NOT NULL", Plain(Void), CType.Null, TF_DEFAULT)
    case 12 => Info("TIMESTAMP NOT NULL", Plain(Cpp.DateTime), Timestamp, TF_DEFAULT)
    case 13 => Info("BIGINT NOT NULL", Plain(Int64), LongLong, TF_DEFAULT)
    case 14 => Info("BIGINT UNSIGNED NOT NULL", Plain(UInt64), LongLong, TF_UNSIGNED)
    case 15 => Info("MEDIUMINT NOT NULL", Plain(Int32), Int24, TF_UNSIGNED)
    case 16 => Info("MEDIUMINT UNSIGNED NOT NULL", Plain(UInt32), Int24, TF_UNSIGNED)
    case 17 => Info("DATE NOT NULL", Plain(Cpp.Date), CType.Date, TF_DEFAULT)
    case 18 => Info("TIME NOT NULL", Plain(Cpp.Time), CType.Time, TF_DEFAULT)
    case 19 => Info("DATETIME NOT NULL", Plain(Cpp.DateTime), CType.DateTime, TF_DEFAULT)
    case 20 => Info("ENUM NOT NULL", Plain(StdString), Enum, TF_DEFAULT)
    case 21 => Info("SET NOT NULL", Plain(Cpp.Set), CType.Set, TF_DEFAULT)
    case 22 => Info("TINYBLOB NOT NULL", Plain(Cpp.String), TinyBlob, TF_DEFAULT)
    case 23 => Info("MEDIUMBLOB NOT NULL", Plain(Cpp.String), MediumBlob, TF_DEFAULT)
    case 24 => Info("LONGBLOB NOT NULL", Plain(Cpp.String), LongBlob, TF_DEFAULT)
    case 25 => Info("BLOB NOT NULL", Plain(Cpp.String), Blob, TF_DEFAULT)
    case 26 => Info("VARCHAR NOT NULL", Plain(StdString), VarString, TF_DEFAULT)
    case _ => Info("CHAR NOT NULL", Plain(StdString), CType.String, TF_DEFAULT)
  }

  /** Rows 28 to 55 of `types[]`, at `i - 28`: the NULL forms. */
  function MNullableRow(i: nat, version: nat): Info
    requires i < 28
  {
    match i
    case 0 => Info("DECIMAL NULL", NullOf(Cpp.Double), DecimalType(version), TF_NULL)
    case 1 => Info("TINYINT NULL", NullOf(TinyInt), Tiny, TF_NULL)
    case 2 => Info("TINYINT UNSIGNED NULL", NullOf(TinyIntUnsigned), Tiny, TF_NULL_UNSIGNED)
    case 3 => Info("SMALLINT NULL", NullOf(Int16), Short, TF_NULL)
    case 4 => Info("SMALLINT UNSIGNED NULL", NullOf(UInt16), Short, TF_NULL_UNSIGNED)
    case 5 => Info("INT NULL", NullOf(Int32), Long, TF_NULL)
    case 6 => Info("INT UNSIGNED NULL", NullOf(UInt32), Long, TF_NULL_UNSIGNED)
    case 7 => Info("FLOAT NULL", NullOf(Cpp.Float), CType.Float, TF_NULL)
    case 8 => Info("FLOAT UNSIGNED NULL", NullOf(Cpp.Float), CType.Float, TF_NULL_UNSIGNED)
    case 9 => Info("DOUBLE NULL", NullOf(Cpp.Double), CType.Double, TF_NULL)
    case 10 => Info("DOUBLE UNSIGNED NULL", NullOf(Cpp.Double), CType.Double, TF_NULL_UNSIGNED)
    case 11 => Info("NULL NULL", NullOf(Void), CType.Null, TF_NULL)
    case 12 => Info("TIMESTAMP NULL", NullOf(Cpp.DateTime), Timestamp, TF_DEFAULT)
    case 13 => Info("BIGINT NULL", NullOf(Int64), LongLong, TF_NULL)
    case 14 => Info("BIGINT UNSIGNED NULL", NullOf(UInt64), LongLong, TF_NULL_UNSIGNED)
    case 15 => Info("MEDIUMINT NULL", NullOf(Int32), Int24, TF_NULL)
    case 16 => Info("MEDIUMINT UNSIGNED NULL", NullOf(UInt32), Int24, TF_NULL_UNSIGNED)
    case 17 => Info("DATE NULL", NullOf(Cpp.Date), CType.Date, TF_NULL)
    case 18 => Info("TIME NULL", NullOf(Cpp.Time), CType.Time, TF_NULL)
    case 19 => Info("DATETIME NULL", NullOf(Cpp.DateTime), CType.DateTime, TF_NULL)
    case 20 => Info("ENUM NULL", NullOf(StdString), Enum, TF_NULL)
    case 21 => Info("SET NULL", NullOf(Cpp.Set), CType.Set, TF_NULL)
    case 22 => Info("TINYBLOB NULL", NullOf(Cpp.String), TinyBlob, TF_NULL)
    case 23 => Info("MEDIUMBLOB NULL", NullOf(Cpp.String), MediumBlob, TF_NULL)
    case 24 => Info("LONGBLOB NULL", NullOf(Cpp.String), LongBlob, TF_NULL)
    case 25 => Info("BLOB NULL", NullOf(Cpp.String), Blob, TF_NULL)
    case 26 => Info("VARCHAR NULL", NullOf(StdString), VarString, TF_NULL)
    case _ => Info("CHAR NULL", NullOf(StdString), CType.String, TF_NULL)
  }

  const NUM_TYPES: nat := 56

  /** `MySQLFieldType::types` for C API `version`. */
  function MTypes(version: nat): (t: seq<Info>)
    ensures |t| == NUM_TYPES && forall i :: 0 <= i < NUM_TYPES ==> t[i] == MRow(i, version)
  {
    seq(NUM_TYPES, n requires 0 <= n < NUM_TYPES => MRow(n, version))
  }

  /** Every row's flags are made of the two generic bits, so the
      `(type, is_unsigned, is_null)` constructor rebuilds them from the
      row's own predicates. */
  lemma RowFlagsAreComposed(i: nat, version: nat)
    requires i < NUM_TYPES
    ensures MRow(i, version).flags < TF_FIRST_UNUSED
    ensures var f := MRow(i, version).flags; ComposeFlags(IsUnsigned(f), IsNull(f)) == f
  {
    FlagsFromPredicates(MRow(i, version).flags);
  }

  /** Every C API type the table uses has a supported base. */
  lemma RowTypesSupported(i: nat, version: nat)
    requires i < NUM_TYPES
    ensures MRow(i, version).apiType != NewDate
    ensures BaseOf(MRow(i, version).apiType, version) != UNSUPPORTED
  {
  }

  // ---------------------------------------------------------------------
  // C++ type -> table row
  // ---------------------------------------------------------------------

  /** The key and inclusion columns of the native map: only rows with
      default flags are entered. */
  function NativeKeys(version: nat): (k: seq<CppType>)
    ensures |k| == NUM_TYPES && forall i :: 0 <= i < NUM_TYPES ==> k[i] == MRow(i, version).cType
  {
    seq(NUM_TYPES, n requires 0 <= n < NUM_TYPES => MRow(n, version).cType)
  }

  function NativeIncluded(version: nat): (inc: seq<bool>)
    ensures |inc| == NUM_TYPES && forall i :: 0 <= i < NUM_TYPES ==> inc[i] == IsDefault(MRow(i, version).flags)
  {
    seq(NUM_TYPES, n requires 0 <= n < NUM_TYPES => IsDefault(MRow(n, version).flags))
  }

  /** `NativeToMySQLTypeMap`'s constructor: the index built over the
      default-flag rows, later rows overwriting earlier ones. */
  method BuildNativeMap(version: nat) returns (m: map<CppType, nat>)
    ensures forall k :: k in m ==> m[k] < NUM_TYPES && MRow(m[k], version).cType == k
                                    && IsDefault(MRow(m[k], version).flags)
    ensures forall k :: k in m ==> forall j :: m[k] < j < NUM_TYPES ==>
              MRow(j, version).cType != k || !IsDefault(MRow(j, version).flags)
    ensures forall k :: k !in m ==> forall j :: 0 <= j < NUM_TYPES ==>
              MRow(j, version).cType != k || !IsDefault(MRow(j, version).flags)
  {
    m := BuildIndex(NativeKeys(version), NativeIncluded(version));
  }

  const NATIVE_LOOKUP_PREFIX: string := "Failed to find MySQL C API type ID for "

  /** `operator[](ti)` on the native map: the index the map holds, or
      `TypeLookupFailed` naming the type. */
  function NativeLookup(ti: CppType, name: string, version: nat): (r: Outcome<nat>)
    ensures r.Returned? <==> exists i :: 0 <= i < NUM_TYPES && MRow(i, version).cType == ti
                                         && IsDefault(MRow(i, version).flags)
    ensures r.Returned? ==> r.value < NUM_TYPES && MRow(r.value, version).cType == ti
                            && IsDefault(MRow(r.value, version).flags)
    ensures r.Returned? ==> forall j :: r.value < j < NUM_TYPES ==>
              MRow(j, version).cType != ti || !IsDefault(MRow(j, version).flags)
    ensures r.Thrown? ==> r.error == TypeLookupFailed(NATIVE_LOOKUP_PREFIX + name)
  {
    var found := LastIndex(NativeKeys(version), NativeIncluded(version), ti);
    if found.Ptr? then Returned(found.value)
    else Thrown(TypeLookupFailed(NATIVE_LOOKUP_PREFIX + name))
  }

  /** `MySQLFieldType(const type_info&)`: the base holds the table index
      and the flags are always the default. */
  function FromTypeInfo(ti: CppType, name: string, version: nat): (r: Outcome<FieldType>)
    ensures r.Returned? <==> NativeLookup(ti, name, version).Returned?
    ensures r.Returned? ==> r.value.flags == TF_DEFAULT && 0 <= r.value.base < NUM_TYPES as int
    ensures r.Returned? ==> r.value == FieldType(NativeLookup(ti, name, version).value, TF_DEFAULT)
    ensures r.Thrown? ==> r == Thrown(TypeLookupFailed(NATIVE_LOOKUP_PREFIX + name))
  {
    var i :- NativeLookup(ti, name, version);
    Returned(FieldType(i, TF_DEFAULT))
  }

  /** Which entry of the table `deref()` reads: the one indexed by the
      base code, which must be a valid index. */
  function Deref(t: FieldType, version: nat): Info
    requires 0 <= t.base < NUM_TYPES as int
  {
    MRow(t.base, version)
  }

  /** `c_type()`. */
  function CTypeOf(t: FieldType, version: nat): CppType
    requires 0 <= t.base < NUM_TYPES as int
  {
    Deref(t, version).cType
  }

  /** A type built from a C++ type names that same C++ type again. */
  lemma FromTypeInfoRoundTrip(ti: CppType, name: string, version: nat)
    requires FromTypeInfo(ti, name, version).Returned?
    ensures CTypeOf(FromTypeInfo(ti, name, version).value, version) == ti
  {
  }

  /** Only rows with default flags are indexed, and the last such row for a
      C++ type wins: `double` maps to the DOUBLE row rather than DECIMAL,
      `std::string` to CHAR, and the only nullable type found is the
      nullable timestamp, whose row lacks `tf_null`.  Unsigned C++ types
      have no default row and are not found. */
  lemma NativeMapExamples(version: nat)
    ensures NativeLookup(Plain(Cpp.Double), "d", version) == Returned(9)
    ensures NativeLookup(Plain(StdString), "s", version) == Returned(27)
    ensures NativeLookup(NullOf(Cpp.DateTime), "t", version) == Returned(40)
    ensures NativeLookup(Plain(UInt32), "u", version).Thrown?
    ensures NativeLookup(NullOf(Int32), "n", version).Thrown?
  {
    NoDefaultRowAfter(Plain(Cpp.Double), 9, version);
    NoLaterDefaultRow(Plain(Cpp.Double), 9, "d", version);
    NoDefaultRowAfter(Plain(StdString), 27, version);
    NoLaterDefaultRow(Plain(StdString), 27, "s", version);
    NoDefaultRowAfter(NullOf(Cpp.DateTime), 40, version);
    NoLaterDefaultRow(NullOf(Cpp.DateTime), 40, "t", version);
    NoDefaultRowAfter(Plain(UInt32), 0, version);
    NoLaterDefaultRow(Plain(UInt32), 0, "u", version);
    NoDefaultRowAfter(NullOf(Int32), 0, version);
    NoLaterDefaultRow(NullOf(Int32), 0, "n", version);
  }

  /** The rows after `i` hold no default-flag row for `c`, for the types
      the examples look up. */
  lemma NoDefaultRowAfter(c: CppType, i: nat, version: nat)
    requires (c, i) in {(Plain(Cpp.Double), 9), (Plain(StdString), 27), (NullOf(Cpp.DateTime), 40),
                        (Plain(UInt32), 0), (NullOf(Int32), 0), (Plain(Cpp.String), 25), (Plain(Int32), 5)}
    ensures forall j :: i < j < NUM_TYPES ==> MRow(j, version).cType != c || !IsDefault(MRow(j, version).flags)
  {
    forall j | i < j < NUM_TYPES
      ensures MRow(j, version).cType != c || !IsDefault(MRow(j, version).flags)
    {
    }
  }

  /** Pins down the native lookup of `c` from the rows after `i`: with a
      default row for `c` at `i` and none after, the lookup finds `i`;
      with none at all, it throws. */
  lemma NoLaterDefaultRow(c: CppType, i: nat, name: string, version: nat)
    requires i < NUM_TYPES
    requires forall j :: i < j < NUM_TYPES ==> MRow(j, version).cType != c || !IsDefault(MRow(j, version).flags)
    ensures MRow(i, version).cType == c && IsDefault(MRow(i, version).flags) ==>
              NativeLookup(c, name, version) == Returned(i)
    ensures i == 0 && (MRow(0, version).cType != c || !IsDefault(MRow(0, version).flags)) ==>
              NativeLookup(c, name, version).Thrown?
  {
  }

  // ---------------------------------------------------------------------
  // Quoting and escaping
  // ---------------------------------------------------------------------

  /** The C++ types `quote_q()` lists: `std::string`, the date and time
      types, the blobs (all `String`), `sql_char` (`std::string`) and
      `sql_set`. */
  predicate QuotedType(c: CppType) {
    c in {Plain(StdString), Plain(Cpp.Date), Plain(Cpp.Time), Plain(Cpp.DateTime),
          Plain(Cpp.String), Plain(Cpp.Set)}
  }

  /** The C++ types `escape_q()` lists: `std::string`, `sql_enum`, the
      blobs, `sql_char` and `sql_varchar`, which come down to two. */
  predicate EscapedType(c: CppType) {
    c in {Plain(StdString), Plain(Cpp.String)}
  }

  /** `MySQLFieldType::quote_q()`. */
  predicate QuoteQ(t: FieldType, version: nat)
    requires 0 <= t.base < NUM_TYPES as int
  {
    QuotedType(CTypeOf(t, version))
  }

  /** `MySQLFieldType::escape_q()`. */
  predicate EscapeQ(t: FieldType, version: nat)
    requires 0 <= t.base < NUM_TYPES as int
  {
    EscapedType(CTypeOf(t, version))
  }

  /** Whatever is escaped is also quoted, but not the other way round: a
      date is quoted and not escaped, and nullable types are neither. */
  lemma EscapedIsQuoted(c: CppType)
    ensures EscapedType(c) ==> QuotedType(c)
    ensures QuotedType(Plain(Cpp.Date)) && !EscapedType(Plain(Cpp.Date))
    ensures !QuotedType(NullOf(StdString)) && !EscapedType(NullOf(StdString))
  {
  }

  /** The MySQL rules agree with the base class's for the text and blob
      rows reached from C++ types: a type obtained from `std::string` or
      `String` is quoted and escaped, one from a number is neither. */
  lemma QuotingOfLookedUpTypes(version: nat)
    ensures var s := FromTypeInfo(Plain(StdString), "s", version);
            s.Returned? && QuoteQ(s.value, version) && EscapeQ(s.value, version)
    ensures var b := FromTypeInfo(Plain(Cpp.String), "b", version);
            b.Returned? && QuoteQ(b.value, version) && EscapeQ(b.value, version)
    ensures var n := FromTypeInfo(Plain(Int32), "i", version);
            n.Returned? && !QuoteQ(n.value, version) && !EscapeQ(n.value, version)
  {
    LookedUpAt(Plain(StdString), 27, "s", version);
    LookedUpQuoting(Plain(StdString), "s", version);
    LookedUpAt(Plain(Cpp.String), 25, "b", version);
    LookedUpQuoting(Plain(Cpp.String), "b", version);
    LookedUpAt(Plain(Int32), 5, "i", version);
    LookedUpQuoting(Plain(Int32), "i", version);
  }

  /** The examples' C++ types are found in the native map at row `i`. */
  lemma LookedUpAt(c: CppType, i: nat, name: string, version: nat)
    requires (c, i) in {(Plain(StdString), 27), (Plain(Cpp.String), 25), (Plain(Int32), 5)}
    ensures FromTypeInfo(c, name, version) == Returned(FieldType(i, TF_DEFAULT))
  {
    NoDefaultRowAfter(c, i, version);
    NoLaterDefaultRow(c, i, name, version);
  }

  /** A type built from a C++ type is quoted and escaped exactly as that
      C++ type is. */
  lemma LookedUpQuoting(c: CppType, name: string, version: nat)
    requires FromTypeInfo(c, name, version).Returned?
    ensures var t := FromTypeInfo(c, name, version).value;
            (QuoteQ(t, version) <==> QuotedType(c)) && (EscapeQ(t, version) <==> EscapedType(c))
  {
    FromTypeInfoRoundTrip(c, name, version);
  }

  /** A type built from a C API code keeps the base code in the field
      `deref()` uses as a table index, so `c_type()` of an INT column reads
      the DECIMAL row and reports `double`. */
  lemma CTypeOfApiBuiltType(version: nat)
    ensures CTypeOf(FromCType(Long, false, false, version), version) == Plain(Cpp.Double)
  {
  }
}
