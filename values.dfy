/** Value types shared by the rule registry: the optional "nil" wrapper, the
    dynamically typed argument values that rules compare against, the
    `int64` counters reported to execution-style statements, result rows and
    callback handles. */
module Values {

  /** `None` stands for a Go nil (slice, closure or pointer), `Some` for a set value. */
  datatype Option<+T> = None | Some(value: T)

  /** Go's `int64`, the type of `RowsAffected` and `LastInsertId`. */
  newtype int64 = x: int | -0x8000_0000_0000_0000 <= x < 0x8000_0000_0000_0000

  /** A bound argument as the driver hands it over: an `interface{}` holding
      one of the scalar kinds a SQL driver produces. The constructor is the
      dynamic type, so `Int(1)` and `Float(1.0)` are different values, as they
      are for Go's deep equality. `NaN` is the one floating-point value that
      is not equal to itself. */
  datatype Value =
    | Null
    | Bool(b: bool)
    | Int(i: int)
    | Float(f: real)
    | NaN
    | Text(s: string)

  /** One result row: column name to value. */
  datatype Row = Row(columns: map<string, Value>)

  /** An installed observation callback, known only by its identity. */
  datatype Callback = Callback(id: nat)

  /** Go's `reflect.DeepEqual` on two scalar interface values: the dynamic
      types must agree and then the values compare with `==`, under which a
      floating-point NaN equals nothing, itself included. */
  function DeepEqual(x: Value, y: Value): (eq: bool)
    ensures eq <==> x == y && !x.NaN?
  {
    match (x, y)
    case (Null, Null) => true
    case (Bool(a), Bool(b)) => a == b
    case (Int(a), Int(b)) => a == b
    case (Float(a), Float(b)) => a == b
    case (Text(a), Text(b)) => a == b
    case _ => false
  }

  /** `reflect.DeepEqual` on two non-nil `[]interface{}` slices: equal length,
      then element by element. */
  function DeepEqualSlices(xs: seq<Value>, ys: seq<Value>): (eq: bool)
    ensures eq <==> |xs| == |ys| && forall i :: 0 <= i < |xs| ==> DeepEqual(xs[i], ys[i])
  {
    if |xs| != |ys| then false
    else if xs == [] then true
    else DeepEqual(xs[0], ys[0]) && DeepEqualSlices(xs[1..], ys[1..])
  }

  /** Apart from NaN, deep equality of slices is plain sequence equality. */
  lemma DeepEqualSlicesIsEquality(xs: seq<Value>, ys: seq<Value>)
    requires forall i :: 0 <= i < |xs| ==> !xs[i].NaN?
    ensures DeepEqualSlices(xs, ys) <==> xs == ys
  {
    if DeepEqualSlices(xs, ys) {
      assert forall i :: 0 <= i < |xs| ==> xs[i] == ys[i];
    }
  }

  /** NaN makes a slice unequal to itself. */
  lemma NaNSliceNotSelfEqual(xs: seq<Value>, k: nat)
    requires k < |xs| && xs[k].NaN?
    ensures !DeepEqualSlices(xs, xs)
  {
    assert !DeepEqual(xs[k], xs[k]);
  }
}
