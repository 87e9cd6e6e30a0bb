/**
 * The tensor store: a header holding a type tag and a rows x cols shape,
 * and one backing buffer whose element representation the tag selects.
 */
module TensorStore {
  import opened Wrappers
  import opened CNumeric

  /** The element type tag: 32-bit float, raw 16-bit half-precision storage, or 8-bit quantized integer. */
  datatype DataType = Float32 | Float16 | Int8 {
    /** Bytes per element: sizeof(float), sizeof(uint16_t), sizeof(int8_t). */
    function ElementSize(): (w: nat)
      ensures w == 1 || w == 2 || w == 4
      ensures w == 4 <==> this == Float32
      ensures w == 1 <==> this == Int8
    {
      match this
      case Float32 => 4
      case Float16 => 2
      case Int8 => 1
    }
  }

  /**
   * The union of buffer pointers as a tagged sum: a value holds exactly one
   * buffer, so no storage can be read through another representation.
   */
  datatype Storage = F32(f32: array<real>) | F16(f16: array<uint16>) | I8(i8: array<int8>) {
    /** The tag whose buffer this is. */
    function Tag(): (t: DataType)
      ensures F32? <==> t == Float32
      ensures F16? <==> t == Float16
      ensures I8? <==> t == Int8
    {
      match this
      case F32(_) => Float32
      case F16(_) => Float16
      case I8(_) => Int8
    }

    function Length(): nat {
      match this
      case F32(a) => a.Length
      case F16(a) => a.Length
      case I8(a) => a.Length
    }

    function Buffer(): object {
      match this
      case F32(a) => a as object
      case F16(a) => a as object
      case I8(a) => a as object
    }
  }

  /** a * b stays below A * B when both factors do. */
  lemma MulBound(a: nat, b: nat, A: nat, B: nat)
    requires a <= A && b <= B
    ensures a * b <= A * B
  {
  }

  /**
   * The number of elements of a rows x cols tensor, computed wide enough
   * that it cannot overflow: it always fits a uint32_t, and it is zero
   * exactly when a dimension is.
   */
  function ElementCount(rows: uint16, cols: uint16): (n: uint32)
    ensures n == 0 <==> rows == 0 || cols == 0
  {
    MulBound(rows, cols, UINT16_MAX, UINT16_MAX);
    rows * cols
  }

  /**
   * The element count as the C code computes it: both uint16_t operands are
   * promoted to signed int before the multiplication, and a product above
   * INT_MAX is undefined behaviour (`None`).
   */
  function ElementCountAsWritten(rows: uint16, cols: uint16): (r: Option<int32>)
    ensures r.None? <==> rows as int * cols as int > INT32_MAX
    ensures r.Some? ==> r.value == ElementCount(rows, cols)
  {
    var p := rows * cols;
    if p <= INT32_MAX then Some(p) else None
  }

  /** The largest shape overflows the signed product although its count fits a uint32_t. */
  lemma LargestShapeOverflows()
    ensures ElementCountAsWritten(UINT16_MAX, UINT16_MAX) == None
    ensures ElementCount(UINT16_MAX, UINT16_MAX) == 0xFFFE_0001
  {
  }

  /** When either dimension is below 32768, the signed product is defined and exact. */
  lemma NarrowShapeCountDefined(rows: uint16, cols: uint16)
    requires rows < 0x8000 || cols < 0x8000
    ensures ElementCountAsWritten(rows, cols) == Some(ElementCount(rows, cols))
  {
    if rows < 0x8000 {
      MulBound(rows, cols, 0x7FFF, UINT16_MAX);
    } else {
      MulBound(cols, rows, 0x7FFF, UINT16_MAX);
    }
  }

  /**
   * A tensor: an immutable header (tag and shape) and the one buffer the tag
   * selects. The header fields never change after creation; the buffer's
   * elements are written in place.
   */
  class Tensor {
    const dtype: DataType
    const rows: uint16
    const cols: uint16
    const data: Storage

    /** The live buffer is the one the tag names and holds rows * cols elements. */
    predicate Valid() {
      data.Tag() == dtype && data.Length() == ElementCount(rows, cols)
    }

    function Count(): nat {
      ElementCount(rows, cols)
    }

    function Buffer(): object {
      data.Buffer()
    }

    /** The elements of a float tensor. */
    function Floats(): seq<real>
      requires data.F32?
      reads data.f32
    {
      data.f32[..]
    }

    /** The elements of a quantized tensor. */
    function Int8s(): seq<int8>
      requires data.I8?
      reads data.i8
    {
      data.i8[..]
    }

    /**
     * Creates a tensor of the given shape and tag, with a fresh buffer of
     * rows * cols elements in the representation the tag selects; a zero
     * dimension gives an empty buffer.
     */
    constructor (r: uint16, c: uint16, t: DataType)
      ensures dtype == t && rows == r && cols == c
      ensures Valid()
      ensures data.Length() == r * c
      ensures fresh(Buffer())
    {
      dtype, rows, cols := t, r, c;
      var n := ElementCount(r, c);
      match t
      case Float32 =>
        var buf := new real[n];
        data := F32(buf);
      case Float16 =>
        var buf := new uint16[n];
        data := F16(buf);
      case Int8 =>
        var buf := new int8[n];
        data := I8(buf);
    }
  }
}
