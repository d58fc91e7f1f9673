/** `FieldTypes`: the vector of field types a result set carries, one per
    column, and the `Field` records it is built from. */
module FieldTypes {
  import opened FieldTypeInfo

  /** What the model needs of one column's `Field`: its name, the table it
      comes from, and its type. */
  datatype Field = Field(name: string, table: string, ftype: FieldType)

  /** The column types of `fields`, in field order. */
  function TypesOf(fields: seq<Field>): (ts: seq<FieldType>)
    ensures |ts| == |fields| && forall i :: 0 <= i < |fields| ==> ts[i] == fields[i].ftype
  {
    seq(|fields|, i requires 0 <= i < |fields| => fields[i].ftype)
  }

  /** `FieldTypes()`. */
  function Empty(): (ts: seq<FieldType>)
    ensures |ts| == 0
  {
    []
  }

  /** `FieldTypes(i)`: `i` default-constructed types. */
  function Sized(i: nat): (ts: seq<FieldType>)
    ensures |ts| == i && forall k :: 0 <= k < i ==> ts[k] == Default()
  {
    seq(i, k => Default())
  }

  /** `operator=(int i)`: insert `i` default types at the front. */
  function InsertDefaults(ts: seq<FieldType>, i: nat): (r: seq<FieldType>)
    ensures |r| == |ts| + i
    ensures r[..i] == Sized(i) && r[i..] == ts
  {
    Sized(i) + ts
  }

  /** `init(res)`: append the type of each of the result's fields, in
      field order, keeping what the vector already held. */
  function Init(ts: seq<FieldType>, fields: seq<Field>): (r: seq<FieldType>)
    ensures |r| == |ts| + |fields|
    ensures r[..|ts|] == ts
    ensures forall i :: 0 <= i < |fields| ==> r[|ts| + i] == fields[i].ftype
  {
    ts + TypesOf(fields)
  }

  /** `init` as the loop writes it: one `push_back` per field. */
  method InitLoop(ts: seq<FieldType>, fields: seq<Field>) returns (r: seq<FieldType>)
    ensures |r| == |ts| + |fields|
    ensures r[..|ts|] == ts
    ensures forall i :: 0 <= i < |fields| ==> r[|ts| + i] == fields[i].ftype
  {
    r := ts;
    var i := 0;
    while i < |fields|
      invariant 0 <= i <= |fields|
      invariant |r| == |ts| + i
      invariant r[..|ts|] == ts
      invariant forall k :: 0 <= k < i ==> r[|ts| + k] == fields[k].ftype
    {
      r := r + [fields[i].ftype];
      i := i + 1;
    }
  }

  /** `FieldTypes(res)`: the result's column types and nothing else. */
  function FromResult(fields: seq<Field>): (r: seq<FieldType>)
    ensures r == TypesOf(fields)
  {
    Init(Empty(), fields)
  }

  /** `operator=(res)` runs `init` too, so it appends rather than
      replaces: a result without fields leaves the vector as it was, and
      assigning from two results in turn appends both lists of types in
      order. */
  lemma InitAppends(ts: seq<FieldType>, f1: seq<Field>, f2: seq<Field>)
    ensures Init(ts, []) == ts
    ensures Init(Init(ts, f1), f2) == ts + TypesOf(f1) + TypesOf(f2)
  {
    var a := Init(ts, []);
    assert a[..|ts|] == ts;
  }

  /** Inserting defaults and then dropping them gives back the original
      vector, and inserting twice adds up. */
  lemma InsertDefaultsAdds(ts: seq<FieldType>, i: nat, j: nat)
    ensures InsertDefaults(ts, i)[i..] == ts
    ensures InsertDefaults(InsertDefaults(ts, i), j) == InsertDefaults(ts, i + j)
  {
    assert Sized(j) + Sized(i) == Sized(i + j);
  }
}
