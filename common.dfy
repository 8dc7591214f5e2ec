/** Machine integer types and small wrappers shared by the decoder and the converter. */
module Common {

  /** Rust's fixed-width integers, as ranges of the unbounded `int`. */
  newtype byte = x: int | 0 <= x < 0x100
  newtype i8 = x: int | -0x80 <= x < 0x80
  newtype i16 = x: int | -0x8000 <= x < 0x8000
  newtype i32 = x: int | -0x8000_0000 <= x < 0x8000_0000
  newtype u16 = x: int | 0 <= x < 0x1_0000
  newtype u32 = x: int | 0 <= x < 0x1_0000_0000
  newtype u64 = x: int | 0 <= x < 0x1_0000_0000_0000_0000

  datatype Option<+T> = None | Some(value: T)

  /** Rust's `Result`: `Ok` carries the value, `Err` the error. */
  datatype Result<+T, +E> = Ok(value: T) | Err(error: E)

  /** `Option::map`. */
  function MapOption<T, U>(o: Option<T>, f: T -> U): (r: Option<U>)
    ensures r.None? <==> o.None?
    ensures o.Some? ==> r.value == f(o.value)
  {
    match o
    case None => None
    case Some(v) => Some(f(v))
  }

  /** 2 to the power `n` (`2u32.pow(n)` and friends). */
  function Pow2(n: nat): (r: nat)
    ensures r >= 1
  {
    if n == 0 then 1 else 2 * Pow2(n - 1)
  }

  lemma {:induction false} Pow2Add(a: nat, b: nat)
    ensures Pow2(a + b) == Pow2(a) * Pow2(b)
  {
    if a > 0 {
      Pow2Add(a - 1, b);
    }
  }

  /** The powers the sample scalers divide by. */
  lemma Pow2Constants()
    ensures Pow2(7) == 0x80 && Pow2(15) == 0x8000
    ensures Pow2(23) == 0x80_0000 && Pow2(31) == 0x8000_0000
  {
    assert Pow2(8) == 0x100;
    Pow2Add(7, 8);
    Pow2Add(15, 8);
    Pow2Add(23, 8);
  }
}
