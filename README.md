# TinyML dynamic tensor: a Dafny model

This project models the core of a small C tensor library for constrained
targets. A tensor is a header with an element type tag (32-bit float, raw
16-bit half-precision storage, or 8-bit quantized integer) and a rows x cols
shape. It owns one buffer of rows * cols elements in the representation that
the tag selects. The quantizer takes a float tensor and an int8 tensor and a
scale. It fills the int8 buffer by dividing each value by the scale, clamping
the result into [-128, 127] and truncating toward zero. When the two tags are
not float and int8, it returns without doing anything.

Files:

- `wrappers.dfy`: `Option`. `None` stands for a result that the C code leaves undefined.
- `c_numeric.dfy`: the C semantics the code relies on. This covers the fixed-width
  integer types, truncation toward zero, the clamp, and the conversion of a floating
  value to `int8_t` (ISO C11, section 6.3.1.4, paragraph 1). A C `float` is a `real`.
- `tensor_store.dfy`: the type tag, the buffer union, the element count and the `Tensor` class.
  The class has an immutable tag, shape and storage, and its buffer elements are written in place.
- `quantizer.dfy`: the per-element specification `QuantizeOne`, the in-place
  method `QuantizeToInt8` proved against it, the lemmas about quantization,
  and the demonstration scenario.

The C `union` of buffer pointers is the datatype `Storage`. It has one variant per
representation, and each variant holds an `array`. `Tensor.Valid()` says that the
live variant is the one the tag names and that it holds `rows * cols` elements.
Every tensor the constructor makes is valid. The tag, the shape and the storage are `const`,
so no operation can change them afterwards.

## Model

| member | source | states |
|---|---|---|
| `CNumeric.TruncTowardZero` | main.c:79 | the C float-to-integer conversion drops the fraction: the result is on the same side of zero as x and within one unit of it, never further from zero |
| `CNumeric.TruncUnique` | main.c:79 | any integer meeting those bounds is the truncation, so the bounds fully specify the conversion |
| `CNumeric.TruncMonotone` | main.c:79 | truncation is monotone |
| `CNumeric.Clamp` | main.c:74-78 | the clamped value lies in [lo, hi], equals x when x is already inside, and is the point of the range closest to x |
| `CNumeric.ConvertToInt8` | main.c:79 | the cast `(int8_t)val` is defined exactly for -129 < val < 128, and then yields the truncation of val |
| `TensorStore.DataType.ElementSize` | main.c:46-57 | bytes per element are 4 for float, 2 for raw half precision and 1 for int8 |
| `TensorStore.Storage.Tag` | main.c:26-31 | each storage variant belongs to exactly one tag and each tag to exactly one variant |
| `TensorStore.ElementCount` | main.c:43 | the element count rows * cols always fits a uint32_t, and it is zero exactly when a dimension is zero |
| `TensorStore.ElementCountAsWritten` | main.c:70 | the count computed in promoted signed int is undefined exactly when rows * cols exceeds INT_MAX, and otherwise equals the true count |
| `TensorStore.LargestShapeOverflows` | main.c:70 | for a 65535 x 65535 shape the signed product is undefined, although the count 4294836225 fits a uint32_t |
| `TensorStore.NarrowShapeCountDefined` | main.c:70 | if either dimension is below 32768, the signed product is defined and exact |
| `TensorStore.Tensor.constructor` | main.c:37-59 | the new tensor has the given tag, rows and cols. Its one live buffer is the variant the tag selects and is freshly allocated. It holds rows * cols elements, so a zero dimension gives an empty buffer |
| `Quantizer.QuantizeOne` | main.c:73-79 | after the clamp the int8 conversion is always defined and gives the stored value. Inside [-128, 127] the clamp does not act and the value is only truncated. Above 127 it saturates to 127, and below -128 to -128 |
| `Quantizer.Quantized` | main.c:70-79 | the quantized buffer has one element per source value |
| `Quantizer.QuantizeTruncThenClamp` | main.c:73-79 | clamping the scaled value and then truncating, as the code does, equals truncating first and then saturating the integer into [-128, 127] |
| `Quantizer.QuantizeIntegral` | main.c:73-79 | a value whose scaled form is an in-range integer is stored exactly |
| `Quantizer.RequantizeIdentity` | main.c:73-79 | quantizing the float that an int8 value stands for (q * scale), with the same scale, gives q back |
| `Quantizer.QuantizeIdempotent` | main.c:70-79 | quantizing the dequantized form of a quantized buffer reproduces that buffer |
| `Quantizer.QuantizeMonotone` | main.c:73-79 | with a positive scale, quantization preserves order |
| `Quantizer.QuantizeError` | main.c:73-79 | inside the range, the stored value is less than one unit from the scaled value and no further from zero: truncation, not rounding |
| `Quantizer.QuantizeBoundaries` | main.c:73-79 | 127 maps to 127, while 127.6 and 200 saturate at 127 and -128.5 at -128. 126.9 truncates to 126 and -0.9 to 0 |
| `Quantizer.QuantizeToInt8` | main.c:65-81 | if the source is not float or the destination not int8, the destination is unchanged. Otherwise destination element i is `QuantizeOne(src[i], scale)` for every i below the source's element count, and every later element keeps its old value. The source is never modified |
| `Quantizer.QuantizeDemo` | main.c:103-116 | the demonstration's 1x4 tensor [0.50, -0.75, 1.20, -0.10], quantized with scale 0.01, becomes [50, -75, 120, -10] |

## Left out

- `print_tensor` (main.c:86-98) and the printing in `main` (main.c:100-128) are console output.
  `QuantizeDemo` models only the computation of `main`.
- The enumerators' numeric codes (0, 1, 2) are used only when printing, so the model does not give them.
- `malloc` failure and `free`: creation always yields fresh buffers, and destruction is not modelled.
  The C code never checks for `NULL`.
- IEEE-754 single-precision rounding of `src[i] / scale`, NaN and infinity: a `float` is a `real`.
  The scenario values are exact in the model.
- Arithmetic on half-precision data: the source only stores raw `uint16_t`, and so does the model.
- The union's byte-level aliasing: storage is a tagged sum and cannot be reinterpreted.
- Element reads and writes go straight to the buffer, as in the C code. There are no accessor operations.
- QuantizeToInt8: requires a destination with at least as many elements as the source when the tags match.
  The C loop writes `i8_dest` without checking its size, and a smaller destination is an out-of-bounds write.
- QuantizeToInt8: requires a non-zero scale when there is something to quantize, because division by zero is left out with the floating-point numerics.
- QuantizeToInt8: a type mismatch is a silent no-op, as in the code. The model has no error result for it.
- QuantizeToInt8: iterates over the corrected element count `ElementCount`, not the signed count the code computes (see Findings).
- Tensor.constructor: sizes the buffer with the corrected `ElementCount`, not with the signed product
  that main.c:43 computes. That product is undefined above INT_MAX (see Findings).
- Tensor.constructor: the byte size is exact. On a target with a 32-bit `size_t`,
  `num_elements * sizeof(float)` at main.c:49 wraps for element counts of 2^30 and above.
  The model does not capture this.
- ElementCountAsWritten: assumes a 32-bit C `int`. With a 16-bit `int`, as on some embedded targets,
  the `uint16_t` operands promote to `unsigned int`. `r * c` at main.c:43 and main.c:70 then wraps
  modulo 2^16 rather than being undefined; 256 x 256, for example, gives 0 elements.
  The model does not capture this.
- RequantizeIdentity: holds for exact reals only. The code divides in single precision (main.c:73)
  before truncating (main.c:79), so a quotient that rounds to just below an integer loses a whole unit.
  For scale 0.01f and q = -121: q * scale rounds to the float -1.2099999189.
  Dividing by 0.01f gives -120.9999924, which truncates to -120.
- QuantizeIdempotent: holds for exact reals only, for the same reason as RequantizeIdentity;
  the same scale and value give a counterexample in float arithmetic.
  QuantizeMonotone is not affected, because rounding is monotone.

## Findings

| source | as written | input that shows it | evidently intended | confidence | as-written member | corrected member |
|---|---|---|---|---|---|---|
| main.c:70 (also main.c:43) | `rows * cols` multiplies two `uint16_t` values after promotion to signed `int`. A product above INT_MAX is undefined behaviour, and at line 70 it is also stored in an `int` loop bound | rows = cols = 65535: the product 4294836225 exceeds INT_MAX | the element count computed in an unsigned 32-bit (or wider) type, as the `uint32_t` at line 43 suggests | not executed; follows from the C rules for integer promotion and signed overflow | `TensorStore.ElementCountAsWritten`, `TensorStore.LargestShapeOverflows` | `TensorStore.ElementCount` |
