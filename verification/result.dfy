/** The result classes: `SimpleResult` for queries without rows,
    `ResultBase` with the field list, names, types and field cursor, and
    the two row-returning results, `StoreQueryResult` (all rows in memory)
    and `UseQueryResult` (rows fetched one at a time).  Driver and
    implementation objects are identified by their addresses; what the
    driver fetches is passed in. */
module Results {
  import opened Basics
  import opened Exceptions
  import opened FieldTypeInfo
  import opened FieldTypes
  import opened Rows
  import MySQLDriver

  /** The address of a `DBDriver` or a `ResultBase::Impl`. */
  type Address = nat

  // ---------------------------------------------------------------------
  // SimpleResult
  // ---------------------------------------------------------------------

  /** `copacetic_`, `insert_id_` and `rows_`. */
  datatype SimpleResult = SimpleResult(copacetic: bool, insertId: nat, rows: nat)

  /** Truthiness of a `SimpleResult`. */
  predicate SimpleTruthy(s: SimpleResult) {
    s.copacetic
  }

  /** `SimpleResult()`: a failed query's result. */
  function DefaultSimple(): (s: SimpleResult)
    ensures !SimpleTruthy(s) && s.insertId == 0 && s.rows == 0
  {
    SimpleResult(false, 0, 0)
  }

  // ---------------------------------------------------------------------
  // ResultBase
  // ---------------------------------------------------------------------

  /** The exceptions flag, `driver_` (null when not fully initialised),
      `fields_`, `names_`, `types_` and `current_field_`. */
  datatype ResultBase = ResultBase(throwExceptions: bool, driver: Nullable<Address>,
                                   fields: seq<Field>, names: Nullable<seq<string>>,
                                   types: Nullable<seq<FieldType>>, currentField: nat)

  /** The column names, in field order, as `FieldNames(this)` collects them. */
  function NamesOf(fields: seq<Field>): (ns: seq<string>)
    ensures |ns| == |fields| && forall i :: 0 <= i < |fields| ==> ns[i] == fields[i].name
  {
    seq(|fields|, i requires 0 <= i < |fields| => fields[i].name)
  }

  /** `ResultBase()`: no driver, no fields, cursor 0. */
  function EmptyBase(throwExceptions: bool): (b: ResultBase)
    ensures b.driver.Null? && b.fields == [] && b.currentField == 0
  {
    ResultBase(throwExceptions, Null, [], Null, Null, 0)
  }

  /** `ResultBase(res, dbd, te)`: the driver is kept only when `res` is
      non-null; with a driver, the fields are fetched and the names and
      types are built from them. */
  function NewBase(res: Nullable<Address>, dbd: Nullable<Address>, throwExceptions: bool,
                   fetched: seq<Field>): (b: ResultBase)
    ensures b.driver == (if res.Ptr? then dbd else Null)
    ensures b.throwExceptions == throwExceptions && b.currentField == 0
    ensures b.driver.Ptr? ==> b.fields == fetched && b.names == Ptr(NamesOf(fetched))
                              && b.types == Ptr(TypesOf(fetched))
    ensures b.driver.Null? ==> b == EmptyBase(throwExceptions)
  {
    var driver := if res.Ptr? then dbd else Null;
    if driver.Ptr? then
      ResultBase(throwExceptions, driver, fetched, Ptr(NamesOf(fetched)), Ptr(FromResult(fetched)), 0)
    else EmptyBase(throwExceptions)
  }

  /** `copy(other)`; `aliased` says `other` is this very object, in which
      case nothing happens.  Otherwise the exceptions flag is always
      copied, and the rest is copied from a source with a driver or reset
      to empty. */
  function Copy(dst: ResultBase, src: ResultBase, aliased: bool): (r: ResultBase)
    requires aliased ==> dst == src
    ensures aliased ==> r == dst
    ensures !aliased && src.driver.Ptr? ==> r == src
    ensures !aliased && src.driver.Null? ==> r == EmptyBase(src.throwExceptions)
  {
    if aliased then dst
    else if src.driver.Ptr? then
      ResultBase(src.throwExceptions, src.driver, src.fields, src.names, src.types, src.currentField)
    else
      ResultBase(src.throwExceptions, Null, [], Null, Null, 0)
  }

  /** The self-copy guard matters: without it, a driverless result whose
      cursor was moved would have its cursor reset. */
  lemma SelfCopyGuardMatters(te: bool)
    ensures var b := EmptyBase(te).(currentField := 3);
            Copy(b, b, true) == b && Copy(b, b, false) != b
  {
  }

  /** Copying is idempotent, and a copy of a freshly built result is that
      result. */
  lemma CopyIdempotent(dst: ResultBase, src: ResultBase, res: Nullable<Address>,
                       dbd: Nullable<Address>, te: bool, fetched: seq<Field>)
    ensures Copy(Copy(dst, src, false), src, false) == Copy(dst, src, false)
    ensures var b := NewBase(res, dbd, te, fetched); Copy(dst, b, false) == b
  {
  }

  /** `vector::at` throws `std::out_of_range`; its text is the standard
      library's. */
  const OUT_OF_RANGE_WHAT: string := "vector::at"

  /** `fetch_field()`: the field under the cursor, through `at`.  The
      cursor is post-incremented before `at` runs, so it advances even
      when `at` throws. */
  function FetchField(b: ResultBase): (r: (Outcome<Field>, ResultBase))
    ensures r.1 == b.(currentField := b.currentField + 1)
    ensures r.0.Returned? <==> b.currentField < |b.fields|
    ensures r.0.Returned? ==> r.0.value == b.fields[b.currentField]
    ensures r.0.Thrown? ==> r.0.error == OutOfRange(OUT_OF_RANGE_WHAT)
  {
    var next := b.(currentField := b.currentField + 1);
    if b.currentField < |b.fields| then (Returned(b.fields[b.currentField]), next)
    else (Thrown(OutOfRange(OUT_OF_RANGE_WHAT)), next)
  }

  /** `fetch_field(i)` and `field(i)`: the field at `i`, through `at`. */
  function FieldAt(b: ResultBase, i: nat): (r: Outcome<Field>)
    ensures r.Returned? <==> i < |b.fields|
    ensures r.Returned? ==> r.value == b.fields[i]
  {
    if i < |b.fields| then Returned(b.fields[i]) else Thrown(OutOfRange(OUT_OF_RANGE_WHAT))
  }

  /** The cursor update behind `UseQueryResult::field_seek(f)`: the
      cursor lives in the base part, so the move is stated there and
      nothing else changes. */
  function FieldSeek(b: ResultBase, f: nat): (r: ResultBase)
    ensures r.currentField == f && r.fields == b.fields
    ensures r == b.(currentField := f)
  {
    b.(currentField := f)
  }

  /** Fetching field by field walks the fields in order: after seeking to
      `f`, two fetches return fields `f` and `f + 1`. */
  lemma FetchFieldWalks(b: ResultBase, f: nat)
    requires f + 1 < |b.fields|
    ensures var (x, b1) := FetchField(FieldSeek(b, f));
            var (y, b2) := FetchField(b1);
            x == FieldAt(b, f) && y == FieldAt(b, f + 1) && b2.currentField == f + 2
  {
  }

  /** `num_fields()`. */
  function NumFields(b: ResultBase): (n: nat)
    ensures n == |b.fields|
  {
    |b.fields|
  }

  /** `table()`: the first field's table, or "" with no fields. */
  function Table(b: ResultBase): (t: string)
    ensures |b.fields| == 0 ==> t == ""
    ensures |b.fields| > 0 ==> t == b.fields[0].table
  {
    if |b.fields| == 0 then "" else b.fields[0].table
  }

  /** The driver's `result_empty()` on the statement a result came from
      answers whether that result has no columns, and then the result
      names no table. */
  lemma ResultEmptyMeansNoFields(res: Address, dbd: Address, te: bool, fetched: seq<Field>)
    ensures MySQLDriver.ResultEmpty(|fetched|) <==> NumFields(NewBase(Ptr(res), Ptr(dbd), te, fetched)) == 0
    ensures MySQLDriver.ResultEmpty(|fetched|) ==> Table(NewBase(Ptr(res), Ptr(dbd), te, fetched)) == ""
  {
  }

  /** A result built with a driver reports the fetched fields: their count,
      their types in order, and the first one's table. */
  lemma NewBaseReportsFields(res: Address, dbd: Address, te: bool, fetched: seq<Field>)
    ensures var b := NewBase(Ptr(res), Ptr(dbd), te, fetched);
            NumFields(b) == |fetched| && b.types.value == Init([], fetched)
            && (fetched != [] ==> Table(b) == fetched[0].table)
            && (fetched == [] ==> Table(b) == "")
  {
  }

  /** `field_num(name)` as written: the guard tests the exceptions flag
      before the inner `if` does, so with exceptions off the `-1` branch is
      never reached and the out-of-range index is returned as it is. */
  function FieldNumAsWritten(b: ResultBase, name: string): (r: Outcome<int>)
    requires b.names.Ptr?
    ensures r.Thrown? <==> name !in b.names.value && b.throwExceptions
    ensures r.Returned? ==> r.value == ToInt32(NameIndex(b.names.value, name))
    ensures r.Returned? && |b.names.value| < TWO_TO_31 ==>
              (name in b.names.value ==> 0 <= r.value < |b.names.value| && b.names.value[r.value] == name)
              && (name !in b.names.value ==> r.value == |b.names.value|)
  {
    NameIndexFinds(b.names.value, name);
    var index := NameIndex(b.names.value, name);
    if index >= |b.names.value| && b.throwExceptions then Thrown(NewBadFieldName(name))
    else Returned(ToInt32(index))
  }

  /** With exceptions off, `field_num` as written answers a missing name
      with the number of names, an index `field_name` does not accept. */
  lemma FieldNumAsWrittenMissesMinusOne()
    ensures var b := ResultBase(false, Ptr(1), [], Ptr(["id"]), Null, 0);
            FieldNumAsWritten(b, "name") == Returned(1)
  {
  }

  /** `field_num(name)`: the inverse of `field_name`.  A missing name
      throws `BadFieldName` with exceptions on and gives -1 with them off. */
  function FieldNum(b: ResultBase, name: string): (r: Outcome<int>)
    requires b.names.Ptr? && |b.names.value| < TWO_TO_31
    ensures name in b.names.value ==> r.Returned? && 0 <= r.value < |b.names.value|
                                      && b.names.value[r.value] == name
    ensures name !in b.names.value && b.throwExceptions ==> r == Thrown(NewBadFieldName(name))
    ensures name !in b.names.value && !b.throwExceptions ==> r == Returned(-1)
  {
    NameIndexFinds(b.names.value, name);
    var index := NameIndex(b.names.value, name);
    if index >= |b.names.value| then
      if b.throwExceptions then Thrown(NewBadFieldName(name)) else Returned(-1)
    else Returned(index as int)
  }

  /** `field_num` and `field_name` are inverse on the result's own names:
      the first field carrying a name is found by it. */
  lemma FieldNumInvertsFieldName(b: ResultBase, i: nat)
    requires b.names.Ptr? && |b.names.value| < TWO_TO_31 && i < |b.names.value|
    requires forall k :: 0 <= k < i ==> b.names.value[k] != b.names.value[i]
    ensures FieldNum(b, b.names.value[i]) == Returned(i)
  {
    var index := NameIndex(b.names.value, b.names.value[i]);
    assert index <= i;
  }

  // ---------------------------------------------------------------------
  // StoreQueryResult
  // ---------------------------------------------------------------------

  /** The base part, the rows, and `copacetic_`. */
  datatype StoreResult = Store(base: ResultBase, rows: seq<Row>, copacetic: bool)

  predicate StoreTruthy(s: StoreResult) {
    s.copacetic
  }

  /** `num_rows()`. */
  function NumRows(s: StoreResult): (n: nat)
    ensures n == |s.rows|
  {
    |s.rows|
  }

  /** The rows of `vector<Row>(n)`: n default rows. */
  function BlankRows(n: nat): (rs: seq<Row>)
    ensures |rs| == n && forall i :: 0 <= i < n ==> rs[i] == DefaultRow()
  {
    seq(n, i => DefaultRow())
  }

  /** `StoreQueryResult()`. */
  function DefaultStore(throwExceptions: bool): (s: StoreResult)
    ensures !StoreTruthy(s) && NumRows(s) == 0 && NumFields(s.base) == 0
  {
    Store(EmptyBase(throwExceptions), [], false)
  }

  /** `StoreQueryResult(res, dbd, num_rows, te)`: `num_rows` rows are
      allocated; when both pointers are set, the rows the driver returns
      before its first falsy one are written from the front. */
  function NewStore(res: Nullable<Address>, dbd: Nullable<Address>, numRows: nat,
                    throwExceptions: bool, fetchedFields: seq<Field>, fetchedRows: seq<Row>): (s: StoreResult)
    requires |fetchedRows| <= numRows
    ensures StoreTruthy(s) <==> res.Ptr? && dbd.Ptr?
    ensures NumRows(s) == numRows
    ensures s.base == NewBase(res, dbd, throwExceptions, fetchedFields)
    ensures StoreTruthy(s) ==> s.rows[..|fetchedRows|] == fetchedRows
    ensures StoreTruthy(s) ==> s.rows[|fetchedRows|..] == BlankRows(numRows - |fetchedRows|)
    ensures !StoreTruthy(s) ==> s.rows == BlankRows(numRows)
  {
    var copacetic := res.Ptr? && dbd.Ptr?;
    var rows := if copacetic then fetchedRows + BlankRows(numRows - |fetchedRows|) else BlankRows(numRows);
    Store(NewBase(res, dbd, throwExceptions, fetchedFields), rows, copacetic)
  }

  /** What a caller's `while (Row r = ...)` loop over the rows reads: the
      rows before the first falsy one. */
  function TruthyPrefix(rows: seq<Row>): (p: seq<Row>)
    ensures p <= rows
    ensures forall i :: 0 <= i < |p| ==> Truthy(p[i])
    ensures |p| < |rows| ==> !Truthy(rows[|p|])
  {
    if rows == [] || !Truthy(rows[0]) then [] else [rows[0]] + TruthyPrefix(rows[1..])
  }

  /** Truthy rows followed by a falsy one (or nothing) read back as the
      truthy rows alone. */
  lemma {:induction false} TruthyPrefixStopsAtFalsy(a: seq<Row>, b: seq<Row>)
    requires forall i :: 0 <= i < |a| ==> Truthy(a[i])
    requires b == [] || !Truthy(b[0])
    ensures TruthyPrefix(a + b) == a
  {
    if a != [] {
      assert (a + b)[1..] == a[1..] + b;
      TruthyPrefixStopsAtFalsy(a[1..], b);
    }
  }

  /** Reading a truthy store's rows up to the first falsy one gives back
      exactly the rows the driver returned; a falsy store reads as empty. */
  lemma NewStoreReadsBackFetched(res: Nullable<Address>, dbd: Nullable<Address>, numRows: nat,
                                 throwExceptions: bool, fetchedFields: seq<Field>, fetchedRows: seq<Row>)
    requires |fetchedRows| <= numRows
    requires forall i :: 0 <= i < |fetchedRows| ==> Truthy(fetchedRows[i])
    ensures var s := NewStore(res, dbd, numRows, throwExceptions, fetchedFields, fetchedRows);
            TruthyPrefix(s.rows) == (if StoreTruthy(s) then fetchedRows else [])
  {
    if res.Ptr? && dbd.Ptr? {
      TruthyPrefixStopsAtFalsy(fetchedRows, BlankRows(numRows - |fetchedRows|));
    } else {
      TruthyPrefixStopsAtFalsy([], BlankRows(numRows));
      assert [] + BlankRows(numRows) == BlankRows(numRows);
    }
  }

  /** `copy(other)` of a `StoreQueryResult`. */
  function StoreCopy(dst: StoreResult, src: StoreResult, aliased: bool): (r: StoreResult)
    requires aliased ==> dst == src
    ensures aliased ==> r == dst
    ensures !aliased ==> r.rows == src.rows && r.copacetic == src.copacetic
                         && r.base == Copy(dst.base, src.base, false)
  {
    if aliased then dst else Store(Copy(dst.base, src.base, false), src.rows, src.copacetic)
  }

  /** `operator=` copies unless both sides are the same object. */
  function StoreAssign(dst: StoreResult, src: StoreResult, aliased: bool): (r: StoreResult)
    requires aliased ==> dst == src
    ensures aliased ==> r == dst
    ensures !aliased ==> StoreTruthy(r) == StoreTruthy(src) && NumRows(r) == NumRows(src)
    ensures !aliased ==> r == StoreCopy(dst, src, false)
  {
    if aliased then dst else StoreCopy(dst, src, false)
  }

  /** Assigning a result with a driver makes an equal copy. */
  lemma StoreAssignCopiesAll(dst: StoreResult, src: StoreResult)
    requires src.base.driver.Ptr?
    ensures StoreAssign(dst, src, false) == src
  {
  }

  // ---------------------------------------------------------------------
  // UseQueryResult
  // ---------------------------------------------------------------------

  /** The base part and `pimpl_`. */
  datatype UseResult = Use(base: ResultBase, pimpl: Nullable<Address>)

  /** Truthiness: whether `pimpl_` is set. */
  predicate UseTruthy(u: UseResult) {
    u.pimpl.Ptr?
  }

  /** `UseQueryResult()` as written: `pimpl_` is never initialised, so its
      value is whatever was in memory, passed here as `indeterminate`. */
  function DefaultUseAsWritten(throwExceptions: bool, indeterminate: Nullable<Address>): (u: UseResult)
    ensures u.pimpl == indeterminate
  {
    Use(EmptyBase(throwExceptions), indeterminate)
  }

  /** As written, a default `UseQueryResult` can test true. */
  lemma DefaultUseAsWrittenMayBeTruthy()
    ensures UseTruthy(DefaultUseAsWritten(true, Ptr(0x1000)))
  {
  }

  /** `UseQueryResult()` with `pimpl_` null: always falsy. */
  function DefaultUse(throwExceptions: bool): (u: UseResult)
    ensures !UseTruthy(u) && u.base.driver.Null? && NumFields(u.base) == 0
  {
    Use(EmptyBase(throwExceptions), Null)
  }

  /** `UseQueryResult(res, dbd, te)`. */
  function NewUse(res: Nullable<Address>, dbd: Nullable<Address>, throwExceptions: bool,
                  fetchedFields: seq<Field>): (u: UseResult)
    ensures UseTruthy(u) <==> res.Ptr?
    ensures u.pimpl == res && u.base == NewBase(res, dbd, throwExceptions, fetchedFields)
  {
    Use(NewBase(res, dbd, throwExceptions, fetchedFields), res)
  }

  /** `copy(other)` of a `UseQueryResult`: both branches of the `pimpl_`
      test come down to copying the pointer. */
  function UseCopy(dst: UseResult, src: UseResult, aliased: bool): (r: UseResult)
    requires aliased ==> dst == src
    ensures aliased ==> r == dst
    ensures !aliased ==> r.pimpl == src.pimpl && r.base == Copy(dst.base, src.base, false)
  {
    if aliased then dst
    else Use(Copy(dst.base, src.base, false), if src.pimpl.Ptr? then src.pimpl else Null)
  }

  /** `operator=` copies unless both sides are the same object; truthiness
      follows the source. */
  function UseAssign(dst: UseResult, src: UseResult, aliased: bool): (r: UseResult)
    requires aliased ==> dst == src
    ensures aliased ==> r == dst
    ensures UseTruthy(r) == UseTruthy(src)
    ensures !aliased ==> r == UseCopy(dst, src, false)
  {
    if aliased then dst else UseCopy(dst, src, false)
  }

  /** `field_seek(f)` on a `UseQueryResult`. */
  function UseFieldSeek(u: UseResult, f: nat): (r: UseResult)
    ensures r.base.currentField == f && r.pimpl == u.pimpl && r.base.fields == u.base.fields
    ensures r == u.(base := u.base.(currentField := f))
  {
    u.(base := FieldSeek(u.base, f))
  }

  const NOT_FETCHED_MESSAGE: string := "Results not fetched"
  const NO_LENGTHS_MESSAGE: string := "Failed to get field lengths"

  /** `fetch_row()`.  `driverRow` is what the driver's `fetch_row` returns
      and `haveLengths` whether `fetch_lengths` returned a non-null array.
      Without `pimpl_` it throws `UseQueryError` or returns an empty row; a
      falsy row from the driver is the end of the result set, not an
      error; a row without lengths throws or gives an empty row. */
  function FetchRow(u: UseResult, driverRow: Row, haveLengths: bool): (r: Outcome<Row>)
    requires u.pimpl.Ptr? ==> u.base.driver.Ptr?
    ensures u.pimpl.Null? ==>
              r == (if u.base.throwExceptions then Thrown(UseQueryError(NOT_FETCHED_MESSAGE))
                    else Returned(DefaultRow()))
    ensures u.pimpl.Ptr? && !Truthy(driverRow) ==> r == Returned(DefaultRow())
    ensures u.pimpl.Ptr? && Truthy(driverRow) && haveLengths ==> r == Returned(driverRow)
    ensures u.pimpl.Ptr? && Truthy(driverRow) && !haveLengths ==>
              r == (if u.base.throwExceptions then Thrown(UseQueryError(NO_LENGTHS_MESSAGE))
                    else Returned(DefaultRow()))
  {
    if u.pimpl.Null? then
      if u.base.throwExceptions then Thrown(UseQueryError(NOT_FETCHED_MESSAGE))
      else Returned(DefaultRow())
    else if Truthy(driverRow) then
      if haveLengths then Returned(driverRow)
      else if u.base.throwExceptions then Thrown(UseQueryError(NO_LENGTHS_MESSAGE))
      else Returned(DefaultRow())
    else Returned(DefaultRow())
  }

  /** `fetch_row` hands out a truthy row exactly when there is a result,
      the driver produced a row and its lengths are known, and it throws
      only when exceptions are on. */
  lemma FetchRowTruthyIff(u: UseResult, driverRow: Row, haveLengths: bool)
    requires u.pimpl.Ptr? ==> u.base.driver.Ptr?
    ensures var r := FetchRow(u, driverRow, haveLengths);
            (r.Returned? && Truthy(r.value) <==> UseTruthy(u) && Truthy(driverRow) && haveLengths)
            && (r.Thrown? ==> u.base.throwExceptions && r.error.UseQueryError?)
  {
  }

  // ---------------------------------------------------------------------
  // The driver's store_result() and use_result()
  // ---------------------------------------------------------------------

  /** `store_result()`: `pres` is what `mysql_store_result` returned and
      `impl` the address of the wrapper made for it; the exceptions flag is
      left at its default. */
  function StoreResultOf(pres: Nullable<Address>, impl: Address, driver: Address, numRows: nat,
                         fetchedFields: seq<Field>, fetchedRows: seq<Row>): (s: StoreResult)
    requires |fetchedRows| <= numRows
    ensures StoreTruthy(s) <==> pres.Ptr?
    ensures pres.Ptr? ==> NumRows(s) == numRows && s.base.driver == Ptr(driver)
  {
    if pres.Ptr? then NewStore(Ptr(impl), Ptr(driver), numRows, true, fetchedFields, fetchedRows)
    else DefaultStore(true)
  }

  /** `use_result()` as written: a failed `mysql_use_result` gives a
      default `UseQueryResult`, whose `pimpl_` is indeterminate. */
  function UseResultOfAsWritten(pres: Nullable<Address>, impl: Address, driver: Address,
                                fetchedFields: seq<Field>, indeterminate: Nullable<Address>): (u: UseResult)
    ensures pres.Ptr? ==> UseTruthy(u)
    ensures pres.Null? ==> u.pimpl == indeterminate
  {
    if pres.Ptr? then NewUse(Ptr(impl), Ptr(driver), true, fetchedFields)
    else DefaultUseAsWritten(true, indeterminate)
  }

  /** As written, a failed `use_result()` can look like a success. */
  lemma FailedUseResultMayLookSuccessful(impl: Address, driver: Address)
    ensures UseTruthy(UseResultOfAsWritten(Null, impl, driver, [], Ptr(impl)))
  {
  }

  /** `use_result()` with the default `pimpl_` null. */
  function UseResultOf(pres: Nullable<Address>, impl: Address, driver: Address,
                       fetchedFields: seq<Field>): (u: UseResult)
    ensures UseTruthy(u) <==> pres.Ptr?
    ensures pres.Ptr? ==> u.base.driver == Ptr(driver) && u.base.fields == fetchedFields
  {
    if pres.Ptr? then NewUse(Ptr(impl), Ptr(driver), true, fetchedFields)
    else DefaultUse(true)
  }

  /** A falsy `use_result()` refuses to fetch rows: with exceptions on,
      `fetch_row` throws "Results not fetched" whatever the driver says. */
  lemma FailedUseResultRefusesRows(impl: Address, driver: Address, driverRow: Row, haveLengths: bool)
    ensures FetchRow(UseResultOf(Null, impl, driver, []), driverRow, haveLengths)
            == Thrown(UseQueryError(NOT_FETCHED_MESSAGE))
  {
  }
}
