/**
 * The value predicates of gpflow/misc.py: is_ndarray, is_list, is_tensor,
 * is_number and is_valid_param_value.
 *
 * Python's dynamic values are a closed datatype, and each isinstance test
 * and np.isscalar is a predicate on its variants, following Python's class
 * hierarchy: bool is a subclass of int, np.float64 is a subclass of float,
 * and no other NumPy scalar type subclasses float or int. NumPy's np.str_
 * and np.bytes_ subclass str and bytes, so they are Str and Bytes values.
 */
module ParamValues {
  import opened Wrappers
  import opened NumTypes

  datatype Value =
    | NoneValue                    // None
    | Str(s: string)               // str
    | Bytes(b: seq<int>)           // bytes
    | PyBool(flag: bool)           // bool
    | PyInt(i: int)                // int
    | PyFloat(x: real)             // float
    | PyComplex(re: real, im: real)
    | NumberObject                 // another numbers.Number, such as Fraction or Decimal
    | NumpyScalar(t: DType)        // an instance of a NumPy scalar type (np.generic)
    | OtherScalar                  // another value np.isscalar accepts: a memoryview, or a NumPy
                                   // scalar of a type outside DType (datetime64, timedelta64,
                                   // void, longdouble, ...)
    | NdArray(dtype: DType, shape: seq<nat>)
    | Tensor(dtype: DType)         // tf.Tensor
    | Variable(dtype: DType)       // tf.Variable
    | List(items: seq<Value>)      // list
    | Other                        // any object np.isscalar rejects: tuple, dict, a user class, ...

  predicate IsInstanceStr(v: Value) { v.Str? }

  /** isinstance(v, float): np.float64 derives from float. */
  predicate IsInstanceFloat(v: Value) { v.PyFloat? || (v.NumpyScalar? && v.t == Float64) }

  /** isinstance(v, int): bool derives from int. */
  predicate IsInstanceInt(v: Value) { v.PyInt? || v.PyBool? }

  /**
   * np.isscalar(v): true for every NumPy scalar (np.generic), for the
   * builtin scalar classes of NumPy's ScalarType (int, float, complex, bool,
   * bytes, str, memoryview) and for any numbers.Number.
   */
  predicate NpIsScalar(v: Value)
  {
    match v
    case Str(_) => true
    case Bytes(_) => true
    case PyBool(_) => true
    case PyInt(_) => true
    case PyFloat(_) => true
    case PyComplex(_, _) => true
    case NumberObject => true
    case NumpyScalar(_) => true
    case OtherScalar => true
    case _ => false
  }

  predicate IsNdArray(v: Value) { v.NdArray? }

  predicate IsList(v: Value) { v.List? }

  predicate IsTensor(v: Value) { v.Tensor? || v.Variable? }

  predicate IsNumber(v: Value) { !IsInstanceStr(v) && NpIsScalar(v) }

  /** The two class tuples is_valid_param_value tests list elements against. */
  datatype ClassTuple = Scalars | Arrays

  /** isinstance(v, (float, int)) or isinstance(v, (list, np.ndarray)). */
  predicate IsInstanceOf(v: Value, types: ClassTuple)
  {
    match types
    case Scalars => IsInstanceFloat(v) || IsInstanceInt(v)
    case Arrays => IsList(v) || IsNdArray(v)
  }

  /** all(isinstance(val, types) for val in vals) */
  predicate AllInstances(vals: seq<Value>, types: ClassTuple)
  {
    if |vals| == 0 then true else IsInstanceOf(vals[0], types) && AllInstances(vals[1..], types)
  }

  /**
   * is_valid_param_value, with the operator precedence of the source: the
   * None test guards only the is_number operand of the final disjunction.
   */
  predicate IsValidParamValue(v: Value)
  {
    if IsList(v) then
      var value := v.items;
      if |value| == 0 then false
      else
        var zeroVal := value[0];
        if IsInstanceOf(zeroVal, Scalars) then AllInstances(value[1..], Scalars)
        else if IsInstanceOf(zeroVal, Arrays) then AllInstances(value[1..], Arrays)
        else false
    else
      (!v.NoneValue? && IsNumber(v)) || IsNdArray(v) || IsTensor(v)
  }

  lemma {:induction false} AllInstancesMeans(vals: seq<Value>, types: ClassTuple)
    ensures AllInstances(vals, types) <==> forall i :: 0 <= i < |vals| ==> IsInstanceOf(vals[i], types)
    decreases |vals|
  {
    if |vals| > 0 {
      AllInstancesMeans(vals[1..], types);
      assert forall i :: 1 <= i < |vals| ==> vals[i] == vals[1..][i - 1];
    }
  }

  /** The kinds of value a parameter may be built from. */
  datatype ParamKind = Scalar | Array | GraphHandle | ScalarList | ArrayList

  /**
   * An independent reference classification by pattern match: which kind of
   * parameter value v is, if any. Lists are classified by what all their
   * elements are, not by their first element.
   */
  function Classify(v: Value): Option<ParamKind>
  {
    match v
    case NoneValue => None
    case Str(_) => None
    case Bytes(_) => Some(Scalar)
    case PyBool(_) => Some(Scalar)
    case PyInt(_) => Some(Scalar)
    case PyFloat(_) => Some(Scalar)
    case PyComplex(_, _) => Some(Scalar)
    case NumberObject => Some(Scalar)
    case NumpyScalar(_) => Some(Scalar)
    case OtherScalar => Some(Scalar)
    case NdArray(_, _) => Some(Array)
    case Tensor(_) => Some(GraphHandle)
    case Variable(_) => Some(GraphHandle)
    case List(items) =>
      if |items| == 0 then None
      else if forall i :: 0 <= i < |items| ==> IsInstanceOf(items[i], Scalars) then Some(ScalarList)
      else if forall i :: 0 <= i < |items| ==> IsInstanceOf(items[i], Arrays) then Some(ArrayList)
      else None
    case Other => None
  }

  /** No value is both a (float, int) instance and a (list, np.ndarray) instance. */
  lemma ClassTuplesDisjoint(v: Value)
    ensures !(IsInstanceOf(v, Scalars) && IsInstanceOf(v, Arrays))
  {
  }

  /** is_valid_param_value accepts exactly the values the reference classifies. */
  lemma ValidIffClassified(v: Value)
    ensures IsValidParamValue(v) <==> Classify(v).Some?
  {
    if v.List? && |v.items| > 0 {
      var items := v.items;
      AllInstancesMeans(items[1..], Scalars);
      AllInstancesMeans(items[1..], Arrays);
      assert forall i :: 1 <= i < |items| ==> items[i] == items[1..][i - 1];
      ClassTuplesDisjoint(items[0]);
    }
  }

  /** An empty list is never a valid parameter value. */
  lemma EmptyListRejected()
    ensures !IsValidParamValue(List([]))
  {
  }

  /**
   * A list headed by a float or int is valid exactly when every remaining
   * element is a float or int.
   */
  lemma ScalarHeadedList(items: seq<Value>)
    requires |items| > 0 && IsInstanceOf(items[0], Scalars)
    ensures IsValidParamValue(List(items)) <==>
            forall i :: 1 <= i < |items| ==> IsInstanceOf(items[i], Scalars)
  {
    AllInstancesMeans(items[1..], Scalars);
    assert forall i :: 1 <= i < |items| ==> items[i] == items[1..][i - 1];
  }

  /** A list mixing a float or int with a list or array is rejected. */
  lemma MixedScalarArrayListRejected(items: seq<Value>, k: nat)
    requires |items| > 0 && IsInstanceOf(items[0], Scalars)
    requires 0 < k < |items| && IsInstanceOf(items[k], Arrays)
    ensures !IsValidParamValue(List(items))
  {
    ScalarHeadedList(items);
    ClassTuplesDisjoint(items[k]);
  }

  /**
   * A list headed by a list or array is valid exactly when every remaining
   * element is a list or array.
   */
  lemma ArrayHeadedList(items: seq<Value>)
    requires |items| > 0 && IsInstanceOf(items[0], Arrays)
    ensures IsValidParamValue(List(items)) <==>
            forall i :: 1 <= i < |items| ==> IsInstanceOf(items[i], Arrays)
  {
    ClassTuplesDisjoint(items[0]);
    AllInstancesMeans(items[1..], Arrays);
    assert forall i :: 1 <= i < |items| ==> items[i] == items[1..][i - 1];
  }

  /** A list whose first element is neither scalar nor list/array is rejected whatever follows. */
  lemma OtherHeadedListRejected(items: seq<Value>)
    requires |items| > 0 && !IsInstanceOf(items[0], Scalars) && !IsInstanceOf(items[0], Arrays)
    ensures !IsValidParamValue(List(items))
  {
  }

  /**
   * The None test binds to the is_number operand only, but None is never an
   * array or a tensor, so the as-written expression agrees with the one
   * that guards all three operands.
   */
  lemma NoneGuardScopeUnobservable(v: Value)
    requires !IsList(v)
    ensures IsValidParamValue(v) <==> !v.NoneValue? && (IsNumber(v) || IsNdArray(v) || IsTensor(v))
  {
  }

  /**
   * A bare string is rejected, while bytes, complex numbers, bools and the
   * other values np.isscalar accepts pass as numbers.
   */
  lemma BareScalarsClassified(s: string, b: seq<int>, flag: bool, re: real, im: real)
    ensures !IsValidParamValue(Str(s)) && !IsValidParamValue(NoneValue) && !IsValidParamValue(Other)
    ensures IsValidParamValue(Bytes(b)) && IsValidParamValue(PyComplex(re, im)) && IsValidParamValue(PyBool(flag))
    ensures IsValidParamValue(OtherScalar)
  {
  }

  /**
   * Inside a list only float and int instances count as scalars: np.float64
   * does (it subclasses float), other NumPy scalars, memoryviews and complex
   * numbers do not, and bools do (they subclass int).
   */
  lemma ListScalarClasses(t: DType, flag: bool, i: int, re: real, im: real)
    ensures IsValidParamValue(List([NumpyScalar(t)])) <==> t == Float64
    ensures !IsValidParamValue(List([PyComplex(re, im)])) && !IsValidParamValue(List([OtherScalar]))
    ensures IsValidParamValue(List([PyBool(flag), PyInt(i)]))
  {
  }
}
