# GPflow utility layer (`gpflow/misc.py`) in Dafny

This project models the self-contained utilities of GPflow's `misc` module
and proves what they promise:

- **Value predicates** (`ParamValues`, `param_values.dfy`): `is_ndarray`,
  `is_list`, `is_tensor`, `is_number` and `is_valid_param_value`, which
  decides whether a user-supplied value can become a model parameter.
  Python values are a closed datatype (`None`, `str`, `bytes`, `bool`,
  `int`, `float`, `complex`, other `numbers.Number`, NumPy scalars, other
  values `np.isscalar` accepts, NumPy arrays, `tf.Tensor`, `tf.Variable`,
  `list`, anything else). `isinstance` and `np.isscalar` are predicates
  over it that follow Python's class hierarchy: `bool` subclasses `int`;
  `np.float64` subclasses `float`; no other NumPy scalar type subclasses
  `float` or `int`. `np.isscalar` holds for every NumPy scalar
  (`np.generic`, including `datetime64`, `timedelta64`, `void` and
  `longdouble`), for `str`, `bytes`, `memoryview`, `complex`, and for every
  `numbers.Number`. The variant `OtherScalar` stands for a `memoryview`
  or a NumPy scalar of a type outside the `DType` enumeration. `Other`
  stands only for values `np.isscalar` rejects.
- **Numeric-type normalizer** (`NumTypes`, `num_types.dfy`):
  `normalize_num_type`. A descriptor is a NumPy scalar class, a NumPy dtype
  object, a TensorFlow dtype or a builtin Python class. The two global
  settings `float_type` and `int_type` are explicit parameters. The raised
  `ValueError` is an `Err` carrying the message text.
- **Vector-to-triangle packer** (`Triangular`, `triangular.dfy`):
  `vec_to_tri` and its inner `vec_to_tri_vector`. `np.tril_indices`,
  `tf.scatter_nd` (which adds duplicate updates and raises on a shape
  mismatch or an out-of-range index) and `tf.map_fn` are modelled over
  integer sequences.
- `Wrappers` (`wrappers.dfy`) holds the `Option` and `Result` types.

Behaviour of the code as written that the model keeps:

- The `None` test in `is_valid_param_value` binds only to the `is_number`
  operand of the final disjunction. The model keeps that precedence, and
  `NoneGuardScopeUnobservable` proves the choice makes no difference,
  since `None` is never an array or a tensor.
- A bare `bytes` value is accepted, because `np.isscalar` holds for it
  and it is not a `str`.
- Inside a list, `np.float64` and `bool` elements count as scalars. Other
  NumPy scalars and `complex` values do not.
- `normalize_num_type` compares with `in`, that is with `==`. So a NumPy
  dtype object (`np.dtype('float32')`) is accepted like its scalar class,
  and the builtin classes `float` and `int` are rejected. The error
  message names the descriptor after the TensorFlow dtype has been
  replaced by its NumPy class.
- `vec_to_tri` does not check the vector length against `N` itself. The
  docstring leaves that to the caller. A vector of the wrong length makes
  `tf.scatter_nd` raise, and the model returns `Err` for it, so there is
  no precondition.
- For `N = 0` the index list is empty, and `tf.constant` turns `[]` into a
  rank-1 tensor of shape (0,) rather than (0, 2). `tf.scatter_nd` then
  expects updates of shape [0, 0] and rejects the vector. So `vec_to_tri`
  raises for `N = 0` even though the docstring's size check admits
  `M = 0`. The model keeps this (`IndexTensor.EmptyRank1`).
- `tf.map_fn` traces `vec_to_tri_vector` on one vector of the batch's
  shape. So a wrong width `M`, or `N = 0`, raises even for an empty batch
  (`D = 0`). The model takes the batch width as a parameter for that
  reason.

The computing members map to the source as follows:
`ParamValues.IsNdArray`, `IsList` and `IsTensor` model gpflow/misc.py:34-43;
`ParamValues.IsNumber` models 46-47; `ParamValues.IsValidParamValue` models
50-67, with `AllInstances` for the `all(...)` at 63;
`NumTypes.Unwrap` models 74-75 and `NumTypes.NormalizeNumType` 69-84;
`Triangular.TrilIndices` models the list at 103;
`Triangular.IndexConstant` and `Triangular.TrilIndexTensor` model the
`tf.constant` at 104; `Triangular.ScatterShapeError` and
`Triangular.ScatterNd` model `tf.scatter_nd` at 107; `Triangular.VecToTriVector` models 106-107;
`Triangular.MapVecToTri` models `tf.map_fn` at 109; and
`Triangular.VecToTri` models 87-109. These members compute; the rows below
name the members whose contracts state their properties.

## Model

| member | source | states |
|---|---|---|
| `NumTypes.NormalizeNumType` | gpflow/misc.py:69-84 | float32/float64, in any of their forms, give the configured float type; int16/int32/int64 give the configured int type; the result is `Ok` exactly when the descriptor stands for one of those five types; otherwise the error is the "Unknown dtype" message naming the unwrapped descriptor |
| `NumTypes.InClassListMeans` | gpflow/misc.py:77-79 | Python's `num_type in [...]` holds exactly for a scalar class or dtype object of a listed NumPy type |
| `NumTypes.TfDTypeAgreesWithNumpy` | gpflow/misc.py:74-80 | a TensorFlow dtype normalises exactly like its NumPy scalar class, and a dtype object is accepted exactly when its scalar class is |
| `NumTypes.NormalizeYieldsConfigured` | gpflow/misc.py:77-80 | every successful result is one of the two configured types |
| `NumTypes.NormalizeIdempotent` | gpflow/misc.py:69-84 | when the configured types are themselves a supported float and int type, normalising a result again returns it unchanged |
| `NumTypes.ParseNameRoundTrip` | gpflow/misc.py:82 | the printed name of a descriptor determines the descriptor: parsing it back gives the descriptor |
| `NumTypes.ErrorNamesDescriptor` | gpflow/misc.py:81-82 | an error message starts with `Unknown dtype "`, and the unwrapped offending descriptor can be read back from the text between the quotes |
| `ParamValues.AllInstancesMeans` | gpflow/misc.py:63 | `all(isinstance(val, types) for val in vals)` holds exactly when every element is an instance of the class tuple |
| `ParamValues.ClassTuplesDisjoint` | gpflow/misc.py:55-56 | no value is an instance of both `(float, int)` and `(list, np.ndarray)` |
| `ParamValues.ValidIffClassified` | gpflow/misc.py:50-67 | `is_valid_param_value` accepts exactly the values an independent pattern-match classification gives a kind: scalar, array, graph handle, non-empty all-scalar list or non-empty all-list/array list |
| `ParamValues.EmptyListRejected` | gpflow/misc.py:51-53 | the empty list is rejected |
| `ParamValues.ScalarHeadedList` | gpflow/misc.py:54-63 | a list headed by a float or int is accepted exactly when every remaining element is a float or int |
| `ParamValues.MixedScalarArrayListRejected` | gpflow/misc.py:54-63 | a list headed by a float or int that contains a list or array later on is rejected |
| `ParamValues.ArrayHeadedList` | gpflow/misc.py:55-63 | a list headed by a list or array is accepted exactly when every remaining element is a list or array |
| `ParamValues.OtherHeadedListRejected` | gpflow/misc.py:61-62 | a list headed by anything else (a string, `None`, a tensor, ...) is rejected whatever follows |
| `ParamValues.NoneGuardScopeUnobservable` | gpflow/misc.py:64-67 | for a non-list, the as-written expression equals the one whose `None` test guards all three operands |
| `ParamValues.BareScalarsClassified` | gpflow/misc.py:46-67 | a bare string, `None` and an object `np.isscalar` rejects are rejected; bare bytes, complex numbers, bools and the other values `np.isscalar` accepts (memoryview, NumPy scalars outside `DType`) are accepted |
| `ParamValues.ListScalarClasses` | gpflow/misc.py:54-63 | a one-element list of a NumPy scalar is accepted exactly for `np.float64`; a list of a complex number or of another `np.isscalar` value is rejected; a list mixing bool and int is accepted |
| `Triangular.TriangleNumberClosedForm` | gpflow/misc.py:98-101 | the number of lower-triangle positions of an n x n matrix is n(n+1)/2 |
| `Triangular.TriIndexClosedForm` | gpflow/misc.py:103 | the row-major index of position (i, j) is i(i+1)/2 + j |
| `Triangular.TrilIndices` | gpflow/misc.py:103 | the index list has n(n+1)/2 entries |
| `Triangular.TrilIndicesAt` | gpflow/misc.py:103 | position (i, j) with j <= i < n is listed at index i(i+1)/2 + j |
| `Triangular.TrilIndicesInverse` | gpflow/misc.py:103 | every listed position (i, j) satisfies j <= i < n and sits at index i(i+1)/2 + j |
| `Triangular.TrilIndicesDistinct` | gpflow/misc.py:103 | no position is listed twice |
| `Triangular.SumAtListed` | gpflow/misc.py:107 | with distinct indices, the scatter holds exactly the update given for a listed position |
| `Triangular.SumAtUnlisted` | gpflow/misc.py:107 | the scatter holds zero at a position that is not listed |
| `Triangular.MapVecToTri` | gpflow/misc.py:109 | the batch succeeds exactly when every vector does; it then holds one result per vector, in batch order, each the unpacking of that vector |
| `Triangular.TrilIndexTensorShape` | gpflow/misc.py:103-104 | the index tensor is the rank-1 empty tensor exactly when n = 0, and otherwise holds the index list as pairs |
| `Triangular.VecToTriVectorDefined` | gpflow/misc.py:98-107 | unpacking a vector succeeds exactly when n > 0 and its length is n(n+1)/2; for n = 0 it raises the rank mismatch of the empty index tensor |
| `Triangular.VecToTriVectorEntries` | gpflow/misc.py:103-107 | for n > 0 and a vector of n(n+1)/2 entries, the result is n x n, holds vector[i(i+1)/2 + j] at (i, j) with j <= i, and zero above the diagonal |
| `Triangular.VecToTriVectorRoundTrip` | gpflow/misc.py:103-107 | reading the lower triangle back row by row gives the original vector |
| `Triangular.LowerTriangularRoundTrip` | gpflow/misc.py:103-107 | a lower-triangular n x n matrix is rebuilt exactly from its lower triangle, so unpacking is a bijection onto lower-triangular matrices |
| `Triangular.VecToTriBatch` | gpflow/misc.py:87-109 | `vec_to_tri` on a D x M batch succeeds exactly when n > 0 and M = n(n+1)/2, whatever D is, and raises for n = 0; on success it returns one lower-triangular matrix per vector, in batch order, each the unpacking of its own vector alone |
| `Triangular.VecToTriExample` | gpflow/misc.py:87-109 | for N = 3, the vector [1, 2, 3, 4, 5, 6] becomes [[1, 0, 0], [2, 3, 0], [4, 5, 6]] |

## Left out

- The SGPMC model (gpflow/models/sgpmc.py) is not part of this model. It delegates to GPflow's conditional, inducing-point, likelihood and parameter code, and that code is not available.
- `pretty_pandas_table`: a thin wrapper over pandas DataFrame construction.
- The graph-collection constants `__TRAINABLES` and `__GLOBAL_VARIABLES`: they are TensorFlow graph keys with no behaviour of their own.
- The global `settings` module: `settings.float_type` and `settings.int_type` are parameters of `NormalizeNumType`.
- Tensor element types and TensorFlow execution (graph construction, devices): matrices hold integers, and the element type does not affect where entries land.
- NumTypes.NormalizeNumType: the model assumes that `num_type.as_numpy_dtype.type` at gpflow/misc.py:75 gives the NumPy scalar class of every TensorFlow dtype. Whether that attribute access succeeds depends on the TensorFlow version, which is not part of this model. If `as_numpy_dtype` already returns a scalar class, the `.type` access may raise `AttributeError`, and the model does not capture that.
- Descriptor types outside the `DType` enumeration (bfloat16, quantized TensorFlow types, resource and variant dtypes) are not modelled. A TensorFlow dtype is modelled only through the NumPy class its `as_numpy_dtype` names.
- Error texts and Python semantics: the model assumes Python 3 and NumPy 1.x. The descriptor names follow their printing (`<class '...'>`, `numpy.bool_`). `bytes` is distinct from `str`, and `np.int64` is not an `int`; both differ under Python 2. TensorFlow's own error messages for `tf.scatter_nd` are replaced by the `ScatterError` values.
- Subclasses of `list` or `np.ndarray` defined by users, and NumPy scalars of type `object_`, are not distinguished from the variants modelled.
- `VecToTri`: `N` is a natural number. A negative `N`, for which `np.tril_indices` returns no positions and the shape is invalid, is not modelled.
- `VecToTri`: the batch is a sequence of vectors of one width M, so it is a D x M tensor. `VecToTri` requires that every vector has that width, because a tensor cannot be ragged.
