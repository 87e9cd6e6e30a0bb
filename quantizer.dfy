/**
 * Quantization of a float tensor into an int8 tensor: every source value is
 * divided by the scale, clamped into [-128, 127] and truncated toward zero.
 */
module Quantizer {
  import opened Wrappers
  import opened CNumeric
  import opened TensorStore

  /**
   * The int8 value stored for one source value v. The clamp makes the
   * conversion to int8_t always defined; inside the range the clamp does not
   * act and the value is only truncated; beyond it the value saturates.
   */
  function QuantizeOne(v: real, scale: real): (q: int8)
    requires scale != 0.0
    ensures ConvertToInt8(Clamp(v / scale, INT8_MIN as real, INT8_MAX as real)) == Some(q)
    ensures INT8_MIN as real <= v / scale <= INT8_MAX as real ==> q == TruncTowardZero(v / scale)
    ensures v / scale >= INT8_MAX as real ==> q == INT8_MAX
    ensures v / scale <= INT8_MIN as real ==> q == INT8_MIN
  {
    TruncTowardZero(Clamp(v / scale, INT8_MIN as real, INT8_MAX as real))
  }

  /** Quantization of a whole buffer of values, element by element. */
  function Quantized(vals: seq<real>, scale: real): (q: seq<int8>)
    requires scale != 0.0 || vals == []
    ensures |q| == |vals|
  {
    seq(|vals|, i requires 0 <= i < |vals| => QuantizeOne(vals[i], scale))
  }

  /** The float value an int8 q stands for under scale. */
  function Dequantize(q: int8, scale: real): real {
    q as real * scale
  }

  function Dequantized(qs: seq<int8>, scale: real): (vs: seq<real>)
    ensures |vs| == |qs|
  {
    seq(|qs|, i requires 0 <= i < |qs| => Dequantize(qs[i], scale))
  }

  /** A value that is already an in-range integer multiple of the scale is stored exactly. */
  lemma QuantizeIntegral(v: real, scale: real, k: int8)
    requires scale != 0.0 && v / scale == k as real
    ensures QuantizeOne(v, scale) == k
  {
    TruncUnique(v / scale, k);
  }

  /**
   * Clamping before truncating, as the code does, agrees with truncating
   * first and then saturating the integer into [-128, 127].
   */
  lemma QuantizeTruncThenClamp(v: real, scale: real)
    requires scale != 0.0
    ensures var t := TruncTowardZero(v / scale);
            QuantizeOne(v, scale) == if t > INT8_MAX then INT8_MAX else if t < INT8_MIN then INT8_MIN else t
  {
    var x := v / scale;
    if x > INT8_MAX as real {
      TruncMonotone(INT8_MAX as real, x);
    } else if x < INT8_MIN as real {
      TruncMonotone(x, INT8_MIN as real);
    }
  }

  /** Dequantizing then quantizing with the same scale gives back the int8 value. */
  lemma RequantizeIdentity(q: int8, scale: real)
    requires scale != 0.0
    ensures QuantizeOne(Dequantize(q, scale), scale) == q
  {
    assert Dequantize(q, scale) / scale == q as real;
    QuantizeIntegral(Dequantize(q, scale), scale, q);
  }

  /**
   * Quantization is idempotent: quantizing the values a quantized buffer
   * stands for reproduces that buffer.
   */
  lemma QuantizeIdempotent(vals: seq<real>, scale: real)
    requires scale != 0.0
    ensures Quantized(Dequantized(Quantized(vals, scale), scale), scale) == Quantized(vals, scale)
  {
    var q := Quantized(vals, scale);
    var r := Quantized(Dequantized(q, scale), scale);
    forall i | 0 <= i < |q|
      ensures r[i] == q[i]
    {
      RequantizeIdentity(q[i], scale);
    }
  }

  /** With a positive scale, a larger value never quantizes to a smaller one. */
  lemma QuantizeMonotone(v: real, w: real, scale: real)
    requires scale > 0.0 && v <= w
    ensures QuantizeOne(v, scale) <= QuantizeOne(w, scale)
  {
    var x, y := v / scale, w / scale;
    assert x <= y by {
      assert x * scale == v && y * scale == w;
    }
    var lo, hi := INT8_MIN as real, INT8_MAX as real;
    TruncMonotone(Clamp(x, lo, hi), Clamp(y, lo, hi));
  }

  /**
   * Inside the range, the stored value lies less than one step from the
   * scaled value and never further from zero than it: truncation, not rounding.
   */
  lemma QuantizeError(v: real, scale: real)
    requires scale != 0.0 && INT8_MIN as real <= v / scale <= INT8_MAX as real
    ensures Dist(QuantizeOne(v, scale) as real, v / scale) < 1.0
    ensures 0.0 <= v / scale ==> 0.0 <= QuantizeOne(v, scale) as real <= v / scale
    ensures v / scale < 0.0 ==> v / scale <= QuantizeOne(v, scale) as real <= 0.0
  {
  }

  /** Boundary values: 127 is kept, 127.6 and 200 saturate at 127, -128.5 at -128, 126.9 truncates to 126. */
  lemma QuantizeBoundaries(scale: real)
    requires scale != 0.0
    ensures QuantizeOne(127.0 * scale, scale) == 127
    ensures QuantizeOne(127.6 * scale, scale) == 127
    ensures QuantizeOne(200.0 * scale, scale) == 127
    ensures QuantizeOne(-128.5 * scale, scale) == -128
    ensures QuantizeOne(126.9 * scale, scale) == 126
    ensures QuantizeOne(-0.9 * scale, scale) == 0
  {
    assert 127.0 * scale / scale == 127.0;
    assert 127.6 * scale / scale == 127.6;
    assert 200.0 * scale / scale == 200.0;
    assert -128.5 * scale / scale == -128.5;
    assert 126.9 * scale / scale == 126.9;
    assert -0.9 * scale / scale == -0.9;
  }

  /**
   * Quantizes the float tensor src into the int8 tensor dest. When either tag
   * is not the expected one it returns without writing. Otherwise it writes
   * dest[i] for every i below src's element count, and nothing else; the
   * caller must provide a dest buffer at least that long and a non-zero scale.
   */
  method QuantizeToInt8(src: Tensor, dest: Tensor, scale: real)
    requires src.Valid() && dest.Valid()
    requires src.dtype == Float32 && dest.dtype == Int8 ==>
               src.Count() <= dest.Count() && (src.Count() > 0 ==> scale != 0.0)
    modifies dest.Buffer()
    ensures src.dtype != Float32 || dest.dtype != Int8 ==> unchanged(dest.Buffer())
    ensures src.dtype == Float32 && dest.dtype == Int8 ==>
              dest.Int8s() == Quantized(src.Floats(), scale) + old(dest.Int8s())[src.Count()..]
    ensures src.dtype == Float32 ==> src.Floats() == old(src.Floats())
  {
    if src.dtype != Float32 || dest.dtype != Int8 {
      return;
    }
    var f, d := src.data.f32, dest.data.i8;
    var n := src.Count();
    var i := 0;
    while i < n
      invariant 0 <= i <= n
      invariant forall k :: 0 <= k < i ==> d[k] == QuantizeOne(f[k], scale)
      invariant forall k :: i <= k < d.Length ==> d[k] == old(d[k])
    {
      var val := f[i] / scale;
      if val > INT8_MAX as real {
        val := INT8_MAX as real;
      }
      if val < INT8_MIN as real {
        val := INT8_MIN as real;
      }
      d[i] := ConvertToInt8(val).value;
      i := i + 1;
    }
    assert d[..] == Quantized(f[..], scale) + old(d[..])[n..];
  }

  /**
   * The demonstration: a 1x4 float tensor holding 0.50, -0.75, 1.20, -0.10,
   * quantized into a 1x4 int8 tensor with scale 0.01.
   */
  method QuantizeDemo() returns (q: seq<int8>)
    ensures q == [50, -75, 120, -10]
  {
    var weights := new Tensor(1, 4, Float32);
    var f := weights.data.f32;
    f[0], f[1], f[2], f[3] := 0.50, -0.75, 1.20, -0.10;
    var quantized := new Tensor(1, 4, Int8);
    QuantizeToInt8(weights, quantized, 0.01);
    q := quantized.Int8s();
    assert weights.Floats() == [0.50, -0.75, 1.20, -0.10];
    assert QuantizeOne(0.50, 0.01) == 50;
    assert QuantizeOne(-0.75, 0.01) == -75;
    assert QuantizeOne(1.20, 0.01) == 120;
    assert QuantizeOne(-0.10, 0.01) == -10;
  }
}
