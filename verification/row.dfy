/** `Row`: one row of a result set, its column data, the field names it
    shares with the result, and its exceptions flag.  Column values are
    modelled as strings. */
module Rows {
  import opened Basics
  import opened Exceptions

  /** `data_` (the column values), `field_names_` (null when the row has no
      names), the `OptionalExceptions` flag, and `initialized_`. */
  datatype Row = Row(data: seq<string>, fieldNames: Nullable<seq<string>>,
                     throwExceptions: bool, initialized: bool)

  /** A row is truthy when it was built from real data. */
  predicate Truthy(r: Row) {
    r.initialized
  }

  /** `Row()`: the empty, falsy row with no field names that the result
      classes hand back when there is no data and that `vector<Row>(n)`
      fills itself with.  Its exceptions flag is taken to be on, the
      library's usual default. */
  function DefaultRow(): (r: Row)
    ensures !Truthy(r) && r.data == [] && r.fieldNames.Null? && r.throwExceptions
  {
    Row([], Null, true, false)
  }

  /** `Row(pimpl, fn, throw_exceptions)`: a row built from data is marked
      initialized. */
  function Make(data: seq<string>, names: Nullable<seq<string>>, throwExceptions: bool): (r: Row)
    ensures Truthy(r)
    ensures r.data == data && r.fieldNames == names && r.throwExceptions == throwExceptions
  {
    Row(data, names, throwExceptions, true)
  }

  /** `FieldNames::operator[](name)`: the position of the first entry equal
      to `name`, or the vector's size when there is none. */
  function NameIndex(names: seq<string>, name: string): (i: nat)
    ensures i <= |names|
    ensures i < |names| ==> names[i] == name
    ensures forall k :: 0 <= k < i ==> names[k] != name
  {
    if names == [] then 0
    else if names[0] == name then 0
    else 1 + NameIndex(names[1..], name)
  }

  /** The index is past the end exactly when the name is absent. */
  lemma NameIndexFinds(names: seq<string>, name: string)
    ensures NameIndex(names, name) < |names| <==> name in names
  {
    if name in names {
      var k :| 0 <= k < |names| && names[k] == name;
      assert NameIndex(names, name) <= k;
    }
  }

  // ---------------------------------------------------------------------
  // at()
  // ---------------------------------------------------------------------

  const ROW_WHAT: string := "Row"

  /** `at(i)` as written: out of range, it reports `size()` as the largest
      legal index. */
  function AtAsWritten(r: Row, i: size_t): (v: Outcome<string>)
    ensures v.Returned? <==> (i as int) < |r.data|
    ensures v.Returned? ==> v.value == r.data[i]
    ensures v.Thrown? ==> v.error == NewBadIndex(ROW_WHAT, ToInt32(i as int), ToInt32(|r.data|))
  {
    if (i as int) < |r.data| then Returned(r.data[i])
    else Thrown(NewBadIndex(ROW_WHAT, ToInt32(i as int), ToInt32(|r.data|)))
  }

  /** The index that `at` as written names as the largest legal one is
      itself rejected. */
  lemma AtAsWrittenNamesIllegalMax(r: Row)
    requires |r.data| < TWO_TO_31
    ensures var n := |r.data| as size_t;
            AtAsWritten(r, n) == Thrown(NewBadIndex(ROW_WHAT, n as int, n as int))
  {
  }

  /** `at(i)`: the element when `i < size()`; otherwise `BadIndex`, thrown
      whatever the exceptions flag says.  The indices are converted to
      `int`, and the largest legal index reported is `size() - 1`. */
  function At(r: Row, i: size_t): (v: Outcome<string>)
    ensures v.Returned? <==> (i as int) < |r.data|
    ensures v.Returned? ==> v.value == r.data[i]
    ensures v.Thrown? ==> v.error == NewBadIndex(ROW_WHAT, ToInt32(i as int), ToInt32(|r.data|) - 1)
  {
    if (i as int) < |r.data| then Returned(r.data[i])
    else Thrown(NewBadIndex(ROW_WHAT, ToInt32(i as int), ToInt32(|r.data|) - 1))
  }

  /** For a non-empty row, the largest legal index `at` reports is
      accepted and the next one is the first rejected. */
  lemma AtReportsLargestLegalIndex(r: Row)
    requires 0 < |r.data| < TWO_TO_31
    ensures var m := (|r.data| - 1) as size_t;
            At(r, m).Returned? && At(r, m + 1) == Thrown(NewBadIndex(ROW_WHAT, m as int + 1, m as int))
  {
  }

  /** `at(-1)`: the index wraps to the largest `size_t`, is rejected even
      with exceptions off, and is reported as -1. */
  lemma AtMinusOne(r: Row)
    requires |r.data| < TWO_TO_31
    ensures At(r, (TWO_TO_64 - 1) as size_t) == Thrown(NewBadIndex(ROW_WHAT, -1, |r.data| - 1))
  {
  }

  // ---------------------------------------------------------------------
  // Lookup by name
  // ---------------------------------------------------------------------

  /** `field_num(name)`: the name's index when the row has names;
      otherwise `BadFieldName`, or 0 with exceptions off. */
  function FieldNum(r: Row, name: string): (v: Outcome<nat>)
    ensures r.fieldNames.Ptr? ==> v == Returned(NameIndex(r.fieldNames.value, name))
    ensures r.fieldNames.Null? && r.throwExceptions ==> v == Thrown(NewBadFieldName(name))
    ensures r.fieldNames.Null? && !r.throwExceptions ==> v == Returned(0)
  {
    match r.fieldNames
    case Ptr(names) => Returned(NameIndex(names, name))
    case Null => if r.throwExceptions then Thrown(NewBadFieldName(name)) else Returned(0)
  }

  /** The value `operator[]` returns for a missing field with exceptions
      off: a default-constructed value. */
  const EMPTY_VALUE: string := ""

  /** `operator[](name)`: the element at the name's index when that is
      below `size()`; else `BadFieldName`, or the empty value with
      exceptions off. */
  function ByName(r: Row, name: string): (v: Outcome<string>)
    ensures FieldNum(r, name).Thrown? ==> v == Thrown(NewBadFieldName(name))
    ensures FieldNum(r, name).Returned? && FieldNum(r, name).value < |r.data| ==>
              v == Returned(r.data[FieldNum(r, name).value])
    ensures FieldNum(r, name).Returned? && FieldNum(r, name).value >= |r.data| ==>
              v == (if r.throwExceptions then Thrown(NewBadFieldName(name)) else Returned(EMPTY_VALUE))
  {
    var si :- FieldNum(r, name);
    // `at(si)` with `si < size()` returns the element
    if si < |r.data| then Returned(r.data[si])
    else if r.throwExceptions then Thrown(NewBadFieldName(name))
    else Returned(EMPTY_VALUE)
  }

  /** With one name per column, lookup by name is `at` of the name's
      position, and a name the row lacks is refused with `BadFieldName`
      or answered with the empty value, as the exceptions flag says. */
  lemma ByNameMatchesNames(r: Row, name: string)
    requires r.fieldNames.Ptr? && |r.fieldNames.value| == |r.data|
    ensures name in r.fieldNames.value ==>
              var k := NameIndex(r.fieldNames.value, name);
              r.fieldNames.value[k] == name && ByName(r, name) == Returned(r.data[k])
    ensures name !in r.fieldNames.value ==>
              ByName(r, name) == (if r.throwExceptions then Thrown(NewBadFieldName(name))
                                  else Returned(EMPTY_VALUE))
  {
    NameIndexFinds(r.fieldNames.value, name);
  }

  /** A row without names and with exceptions off answers every name with
      its first column, because `field_num` falls back to 0. */
  lemma ByNameWithoutNames(r: Row, name: string)
    requires r.fieldNames.Null? && !r.throwExceptions && |r.data| > 0
    ensures ByName(r, name) == Returned(r.data[0])
  {
  }

  // ---------------------------------------------------------------------
  // Assignment
  // ---------------------------------------------------------------------

  /** `operator=(rhs)`: the data and the initialized flag are copied and the
      exceptions flag stays.  Both rows must have name vectors, which the
      operator dereferences; the names are copied. */
  function Assign(lhs: Row, rhs: Row): (r: Row)
    requires lhs.fieldNames.Ptr? && rhs.fieldNames.Ptr?
    ensures r.data == rhs.data && r.initialized == rhs.initialized
    ensures r.throwExceptions == lhs.throwExceptions
    ensures rhs.fieldNames.value == [] ==> r.fieldNames == Ptr([])
  {
    Row(rhs.data, rhs.fieldNames, lhs.throwExceptions, rhs.initialized)
  }

  /** After assignment, positional access sees exactly the right-hand
      row's columns, and truthiness follows the right-hand row. */
  lemma AssignCopiesColumns(lhs: Row, rhs: Row, i: size_t)
    requires lhs.fieldNames.Ptr? && rhs.fieldNames.Ptr?
    ensures At(Assign(lhs, rhs), i) == At(rhs, i)
    ensures Truthy(Assign(lhs, rhs)) == Truthy(rhs)
  {
  }
}
