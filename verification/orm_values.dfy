/**
 * The parameter values of the `dirtybase_orm` crate and their conversions
 * from 32-bit integers. `usize` and `isize` are taken to be 64 bits wide,
 * as on the targets the crate builds for; every 32-bit integer fits, so
 * each conversion keeps the number it is given, and a list keeps its length
 * and order.
 */
module OrmValues {
  import opened Wrappers

  type Int32 = x: int | -0x8000_0000 <= x < 0x8000_0000
  type Uint32 = x: int | 0 <= x < 0x1_0000_0000
  type Isize = x: int | -0x8000_0000_0000_0000 <= x < 0x8000_0000_0000_0000
  type Usize = x: int | 0 <= x < 0x1_0000_0000_0000_0000

  /** A parameter value; an `f64` is carried as its text. */
  datatype Value =
    | Null
    | Usize(usize: Usize)
    | Usizes(usizes: seq<Usize>)
    | Isize(isize: Isize)
    | Isizes(isizes: seq<Isize>)
    | F64(f64: string)
    | F64s(f64s: seq<string>)
    | String(string: string)
    | Strings(strings: seq<string>)
    | Boolean(boolean: bool)
    | Booleans(booleans: seq<bool>)

  /** `From<i32>`: widened to `isize`. */
  function FromI32(x: Int32): (v: Value)
    ensures v.Isize? && v.isize == x
  {
    Isize(x as Isize)
  }

  /** `From<Vec<i32>>`: each element widened to `isize`, in order. */
  function FromI32s(xs: seq<Int32>): (v: Value)
    ensures v.Isizes? && |v.isizes| == |xs|
    ensures forall i :: 0 <= i < |xs| ==> v.isizes[i] == xs[i]
  {
    Isizes(seq(|xs|, i requires 0 <= i < |xs| => xs[i] as Isize))
  }

  /** `From<u32>`: widened to `usize`. */
  function FromU32(x: Uint32): (v: Value)
    ensures v.Usize? && v.usize == x
  {
    Usize(x as Usize)
  }

  /** `From<Vec<u32>>`: each element widened to `usize`, in order. */
  function FromU32s(xs: seq<Uint32>): (v: Value)
    ensures v.Usizes? && |v.usizes| == |xs|
    ensures forall i :: 0 <= i < |xs| ==> v.usizes[i] == xs[i]
  {
    Usizes(seq(|xs|, i requires 0 <= i < |xs| => xs[i] as Usize))
  }

  /** The 32-bit integer an `Isize` value holds, if it holds one that fits. */
  function AsI32(v: Value): (r: Option<Int32>)
    ensures r.Some? ==> v.Isize? && v.isize == r.value
  {
    if v.Isize? && -0x8000_0000 <= v.isize < 0x8000_0000 then Some(v.isize as Int32) else None
  }

  /** The 32-bit integers an `Isizes` value holds, if all of them fit. */
  function AsI32s(v: Value): (r: Option<seq<Int32>>)
    ensures r.Some? ==> v.Isizes? && r.value == v.isizes
  {
    if v.Isizes? && forall i :: 0 <= i < |v.isizes| ==> -0x8000_0000 <= v.isizes[i] < 0x8000_0000
    then Some(seq(|v.isizes|, i requires 0 <= i < |v.isizes| => v.isizes[i] as Int32))
    else None
  }

  /** The 32-bit unsigned integer a `Usize` value holds, if it holds one that
      fits. */
  function AsU32(v: Value): (r: Option<Uint32>)
    ensures r.Some? ==> v.Usize? && v.usize == r.value
  {
    if v.Usize? && v.usize < 0x1_0000_0000 then Some(v.usize as Uint32) else None
  }

  /** The 32-bit unsigned integers a `Usizes` value holds, if all of them
      fit. */
  function AsU32s(v: Value): (r: Option<seq<Uint32>>)
    ensures r.Some? ==> v.Usizes? && r.value == v.usizes
  {
    if v.Usizes? && forall i :: 0 <= i < |v.usizes| ==> v.usizes[i] < 0x1_0000_0000
    then Some(seq(|v.usizes|, i requires 0 <= i < |v.usizes| => v.usizes[i] as Uint32))
    else None
  }

  /** Converting an `i32` loses nothing: it can be read back. */
  lemma FromI32RoundTrip(x: Int32)
    ensures AsI32(FromI32(x)) == Some(x)
  {
  }

  /** Converting a `Vec<i32>` loses nothing: the list can be read back. */
  lemma FromI32sRoundTrip(xs: seq<Int32>)
    ensures AsI32s(FromI32s(xs)) == Some(xs)
  {
    var v := FromI32s(xs);
    assert forall i :: 0 <= i < |v.isizes| ==> -0x8000_0000 <= v.isizes[i] < 0x8000_0000;
    assert seq(|v.isizes|, i requires 0 <= i < |v.isizes| => v.isizes[i] as Int32) == xs;
  }

  /** Converting a `u32` loses nothing: it can be read back. */
  lemma FromU32RoundTrip(x: Uint32)
    ensures AsU32(FromU32(x)) == Some(x)
  {
  }

  /** Converting a `Vec<u32>` loses nothing: the list can be read back. */
  lemma FromU32sRoundTrip(xs: seq<Uint32>)
    ensures AsU32s(FromU32s(xs)) == Some(xs)
  {
    var v := FromU32s(xs);
    assert forall i :: 0 <= i < |v.usizes| ==> v.usizes[i] < 0x1_0000_0000;
    assert seq(|v.usizes|, i requires 0 <= i < |v.usizes| => v.usizes[i] as Uint32) == xs;
  }

  /** Distinct lists convert to distinct values. */
  lemma FromI32sInjective(xs: seq<Int32>, ys: seq<Int32>)
    requires FromI32s(xs) == FromI32s(ys)
    ensures xs == ys
  {
    FromI32sRoundTrip(xs);
    FromI32sRoundTrip(ys);
  }

  /** Distinct lists convert to distinct values. */
  lemma FromU32sInjective(xs: seq<Uint32>, ys: seq<Uint32>)
    requires FromU32s(xs) == FromU32s(ys)
    ensures xs == ys
  {
    FromU32sRoundTrip(xs);
    FromU32sRoundTrip(ys);
  }

  /** A signed and an unsigned conversion never meet: the kind of the
      source integer survives in the value. */
  lemma SignedUnsignedDistinct(x: Int32, y: Uint32, xs: seq<Int32>, ys: seq<Uint32>)
    ensures FromI32(x) != FromU32(y)
    ensures FromI32s(xs) != FromU32s(ys)
  {
  }
}
