/**
 * Numeric-type normalisation (gpflow/misc.py, normalize_num_type).
 *
 * A dtype descriptor is one of: a NumPy scalar class (np.float32), a NumPy
 * dtype object (np.dtype('float32'), which compares equal to its scalar
 * class), a TensorFlow dtype (tf.float32) or a builtin Python class (float).
 * The two canonical types of the global settings module are parameters.
 */
module NumTypes {
  import opened Wrappers

  /** NumPy scalar types. */
  datatype DType =
    | Float16 | Float32 | Float64
    | Int8 | Int16 | Int32 | Int64
    | UInt8 | UInt16 | UInt32 | UInt64
    | Bool | Complex64 | Complex128 | Object

  /** Builtin Python classes a caller may pass where a NumPy type is expected. */
  datatype PyClass = FloatClass | IntClass | BoolClass | ComplexClass

  datatype Descriptor =
    | ScalarType(t: DType)   // the NumPy scalar class itself
    | DTypeObject(t: DType)  // a numpy.dtype instance describing t
    | TfDType(t: DType)      // a tf.DType whose as_numpy_dtype.type is t
    | PyType(c: PyClass)     // a builtin Python class

  /** The dtype string NumPy prints for t ('float32', 'bool', 'object'). */
  function DTypeName(t: DType): string
  {
    match t
    case Float16 => "float16"
    case Float32 => "float32"
    case Float64 => "float64"
    case Int8 => "int8"
    case Int16 => "int16"
    case Int32 => "int32"
    case Int64 => "int64"
    case UInt8 => "uint8"
    case UInt16 => "uint16"
    case UInt32 => "uint32"
    case UInt64 => "uint64"
    case Bool => "bool"
    case Complex64 => "complex64"
    case Complex128 => "complex128"
    case Object => "object"
  }

  /** The name of the NumPy scalar class of t ('float32', 'bool_', 'object_'). */
  function ClassName(t: DType): string
  {
    if t == Bool || t == Object then DTypeName(t) + "_" else DTypeName(t)
  }

  /** The name TensorFlow prints for the dtype whose NumPy type is t. */
  function TfName(t: DType): string
  {
    if t == Object then "string" else DTypeName(t)
  }

  function PyName(c: PyClass): string
  {
    match c
    case FloatClass => "float"
    case IntClass => "int"
    case BoolClass => "bool"
    case ComplexClass => "complex"
  }

  const ClassPrefix: string := "<class 'numpy."
  const BuiltinPrefix: string := "<class '"
  const TfPrefix: string := "<dtype: '"
  const NameSuffix: string := "'>"

  /** What Python's str.format prints for a descriptor. */
  function Name(d: Descriptor): string
  {
    match d
    case ScalarType(t) => ClassPrefix + ClassName(t) + NameSuffix
    case DTypeObject(t) => DTypeName(t)
    case TfDType(t) => TfPrefix + TfName(t) + NameSuffix
    case PyType(c) => BuiltinPrefix + PyName(c) + NameSuffix
  }

  const MessagePrefix: string := "Unknown dtype \""
  const MessageSuffix: string := "\" passed to normalizer."

  /** The text of the ValueError raised for an unsupported descriptor named n. */
  function UnknownDTypeMessage(n: string): string
  {
    MessagePrefix + n + MessageSuffix
  }

  /** A TensorFlow dtype is replaced by its NumPy scalar class; anything else is kept. */
  function Unwrap(d: Descriptor): Descriptor
  {
    if d.TfDType? then ScalarType(d.t) else d
  }

  /**
   * Python's `d == t` for a NumPy scalar class t: a scalar class is equal
   * only to itself, a dtype object equals the class it describes, and a
   * builtin class or a TensorFlow dtype equals no NumPy class.
   */
  predicate EqualsClass(d: Descriptor, t: DType)
  {
    (d.ScalarType? || d.DTypeObject?) && d.t == t
  }

  /** Python's `d in ts` over a list of NumPy scalar classes. */
  predicate InClassList(d: Descriptor, ts: seq<DType>)
  {
    exists i :: 0 <= i < |ts| && EqualsClass(d, ts[i])
  }

  lemma InClassListMeans(d: Descriptor, ts: seq<DType>)
    ensures InClassList(d, ts) <==> (d.ScalarType? || d.DTypeObject?) && d.t in ts
  {
    if (d.ScalarType? || d.DTypeObject?) && d.t in ts {
      var i :| 0 <= i < |ts| && ts[i] == d.t;
      assert EqualsClass(d, ts[i]);
    }
  }

  /** True when d stands for the NumPy type t in any of its forms. */
  predicate Denotes(d: Descriptor, t: DType)
  {
    !d.PyType? && d.t == t
  }

  predicate IsFloatKind(t: DType)
  {
    t == Float32 || t == Float64
  }

  predicate IsIntKind(t: DType)
  {
    t == Int16 || t == Int32 || t == Int64
  }

  /**
   * normalize_num_type: float32/float64 become the configured float type,
   * int16/int32/int64 the configured int type, and every other descriptor
   * raises a ValueError that names it.
   */
  function NormalizeNumType(numType: Descriptor, floatType: DType, intType: DType): (r: Result<DType, string>)
    ensures (Denotes(numType, Float32) || Denotes(numType, Float64)) ==> r == Ok(floatType)
    ensures (Denotes(numType, Int16) || Denotes(numType, Int32) || Denotes(numType, Int64)) ==> r == Ok(intType)
    ensures r.Ok? <==> exists t :: Denotes(numType, t) && (IsFloatKind(t) || IsIntKind(t))
    ensures r.Err? ==> r.error == UnknownDTypeMessage(Name(Unwrap(numType)))
  {
    var n := Unwrap(numType);
    InClassListMeans(n, [Float32, Float64]);
    InClassListMeans(n, [Int16, Int32, Int64]);
    if InClassList(n, [Float32, Float64]) then
      assert Denotes(numType, numType.t);
      Ok(floatType)
    else if InClassList(n, [Int16, Int32, Int64]) then
      assert Denotes(numType, numType.t);
      Ok(intType)
    else
      Err(UnknownDTypeMessage(Name(n)))
  }

  /** A TensorFlow dtype and its NumPy scalar class always normalise alike. */
  lemma TfDTypeAgreesWithNumpy(t: DType, floatType: DType, intType: DType)
    ensures NormalizeNumType(TfDType(t), floatType, intType) == NormalizeNumType(ScalarType(t), floatType, intType)
    ensures NormalizeNumType(DTypeObject(t), floatType, intType).Ok? ==
            NormalizeNumType(ScalarType(t), floatType, intType).Ok?
  {
  }

  /** Every successful normalisation yields one of the two configured types. */
  lemma NormalizeYieldsConfigured(numType: Descriptor, floatType: DType, intType: DType)
    ensures NormalizeNumType(numType, floatType, intType).Ok? ==>
            NormalizeNumType(numType, floatType, intType).value in {floatType, intType}
  {
  }

  /**
   * When the configured types are themselves supported, normalising the
   * result again changes nothing: the canonical types are fixed points.
   */
  lemma NormalizeIdempotent(numType: Descriptor, floatType: DType, intType: DType)
    requires IsFloatKind(floatType) && IsIntKind(intType)
    requires NormalizeNumType(numType, floatType, intType).Ok?
    ensures var once := NormalizeNumType(numType, floatType, intType).value;
            NormalizeNumType(ScalarType(once), floatType, intType) == Ok(once)
  {
    var once := NormalizeNumType(numType, floatType, intType).value;
    assert Denotes(ScalarType(once), once);
  }

  function ParseDTypeName(s: string): Option<DType>
  {
    if s == "float16" then Some(Float16)
    else if s == "float32" then Some(Float32)
    else if s == "float64" then Some(Float64)
    else if s == "int8" then Some(Int8)
    else if s == "int16" then Some(Int16)
    else if s == "int32" then Some(Int32)
    else if s == "int64" then Some(Int64)
    else if s == "uint8" then Some(UInt8)
    else if s == "uint16" then Some(UInt16)
    else if s == "uint32" then Some(UInt32)
    else if s == "uint64" then Some(UInt64)
    else if s == "bool" then Some(Bool)
    else if s == "complex64" then Some(Complex64)
    else if s == "complex128" then Some(Complex128)
    else if s == "object" then Some(Object)
    else None
  }

  function ParseClassName(s: string): Option<DType>
  {
    if s == "bool_" then Some(Bool)
    else if s == "object_" then Some(Object)
    else if s == "bool" || s == "object" then None
    else ParseDTypeName(s)
  }

  function ParseTfName(s: string): Option<DType>
  {
    if s == "string" then Some(Object)
    else if s == "object" then None
    else ParseDTypeName(s)
  }

  function ParsePyName(s: string): Option<PyClass>
  {
    if s == "float" then Some(FloatClass)
    else if s == "int" then Some(IntClass)
    else if s == "bool" then Some(BoolClass)
    else if s == "complex" then Some(ComplexClass)
    else None
  }

  /** True when s is prefix + (something) + NameSuffix. */
  predicate Wrapped(s: string, prefix: string)
  {
    |s| >= |prefix| + |NameSuffix| && s[..|prefix|] == prefix && s[|s| - |NameSuffix|..] == NameSuffix
  }

  function Unwrapped(s: string, prefix: string): string
    requires Wrapped(s, prefix)
  {
    s[|prefix|..|s| - |NameSuffix|]
  }

  /** Reads a descriptor back from the text that Name prints for it. */
  function ParseName(s: string): Option<Descriptor>
  {
    if ParseDTypeName(s).Some? then
      Some(DTypeObject(ParseDTypeName(s).value))
    else if Wrapped(s, ClassPrefix) then
      match ParseClassName(Unwrapped(s, ClassPrefix))
      case Some(t) => Some(ScalarType(t))
      case None => None
    else if Wrapped(s, TfPrefix) then
      match ParseTfName(Unwrapped(s, TfPrefix))
      case Some(t) => Some(TfDType(t))
      case None => None
    else if Wrapped(s, BuiltinPrefix) then
      match ParsePyName(Unwrapped(s, BuiltinPrefix))
      case Some(c) => Some(PyType(c))
      case None => None
    else
      None
  }

  lemma ParseDTypeNameRoundTrip(t: DType)
    ensures ParseDTypeName(DTypeName(t)) == Some(t)
  {
  }

  lemma ParseDTypeNameStartsWithLetter(s: string)
    requires ParseDTypeName(s).Some?
    ensures |s| > 0 && 'a' <= s[0] <= 'z'
  {
  }

  lemma WrappedRoundTrip(prefix: string, mid: string)
    ensures Wrapped(prefix + mid + NameSuffix, prefix)
    ensures Unwrapped(prefix + mid + NameSuffix, prefix) == mid
  {
    var s := prefix + mid + NameSuffix;
    assert s[..|prefix|] == prefix;
    assert s[|s| - |NameSuffix|..] == NameSuffix;
    assert s[|prefix|..|s| - |NameSuffix|] == mid;
  }

  lemma ParseClassNameRoundTrip(t: DType)
    ensures ParseClassName(ClassName(t)) == Some(t)
  {
  }

  lemma ParseTfNameRoundTrip(t: DType)
    ensures ParseTfName(TfName(t)) == Some(t)
  {
  }

  lemma ParsePyNameRoundTrip(c: PyClass)
    ensures ParsePyName(PyName(c)) == Some(c)
  {
  }

  lemma ParseScalarTypeName(t: DType)
    ensures ParseName(Name(ScalarType(t))) == Some(ScalarType(t))
  {
    var s := Name(ScalarType(t));
    WrappedRoundTrip(ClassPrefix, ClassName(t));
    assert s[0] == '<';
    if ParseDTypeName(s).Some? { ParseDTypeNameStartsWithLetter(s); }
    ParseClassNameRoundTrip(t);
  }

  lemma ParseTfDTypeName(t: DType)
    ensures ParseName(Name(TfDType(t))) == Some(TfDType(t))
  {
    var s := Name(TfDType(t));
    WrappedRoundTrip(TfPrefix, TfName(t));
    assert s[0] == '<' && s[1] == 'd';
    if ParseDTypeName(s).Some? { ParseDTypeNameStartsWithLetter(s); }
    assert !Wrapped(s, ClassPrefix) by {
      if |s| >= |ClassPrefix| + |NameSuffix| { assert s[..|ClassPrefix|][1] != ClassPrefix[1]; }
    }
    ParseTfNameRoundTrip(t);
  }

  lemma ParsePyTypeName(c: PyClass)
    ensures ParseName(Name(PyType(c))) == Some(PyType(c))
  {
    var s := Name(PyType(c));
    WrappedRoundTrip(BuiltinPrefix, PyName(c));
    assert s[0] == '<' && s[1] == 'c' && s[8] != 'n';
    if ParseDTypeName(s).Some? { ParseDTypeNameStartsWithLetter(s); }
    assert !Wrapped(s, ClassPrefix) by {
      if |s| >= |ClassPrefix| + |NameSuffix| { assert s[..|ClassPrefix|][8] != ClassPrefix[8]; }
    }
    assert !Wrapped(s, TfPrefix) by {
      if |s| >= |TfPrefix| + |NameSuffix| { assert s[..|TfPrefix|][1] != TfPrefix[1]; }
    }
    ParsePyNameRoundTrip(c);
  }

  /** Name is injective: the descriptor can be read back from its name. */
  lemma ParseNameRoundTrip(d: Descriptor)
    ensures ParseName(Name(d)) == Some(d)
  {
    match d
    case DTypeObject(t) => ParseDTypeNameRoundTrip(t);
    case ScalarType(t) => ParseScalarTypeName(t);
    case TfDType(t) => ParseTfDTypeName(t);
    case PyType(c) => ParsePyTypeName(c);
  }

  /**
   * The ValueError names the offending descriptor: the descriptor after the
   * TensorFlow unwrapping can be read back from the message.
   */
  lemma ErrorNamesDescriptor(numType: Descriptor, floatType: DType, intType: DType)
    requires NormalizeNumType(numType, floatType, intType).Err?
    ensures var msg := NormalizeNumType(numType, floatType, intType).error;
            |msg| >= |MessagePrefix| + |MessageSuffix| &&
            msg[..|MessagePrefix|] == MessagePrefix &&
            ParseName(msg[|MessagePrefix|..|msg| - |MessageSuffix|]) == Some(Unwrap(numType))
  {
    var n := Name(Unwrap(numType));
    var msg := UnknownDTypeMessage(n);
    assert msg[..|MessagePrefix|] == MessagePrefix;
    assert msg[|MessagePrefix|..|msg| - |MessageSuffix|] == n;
    ParseNameRoundTrip(Unwrap(numType));
  }
}
