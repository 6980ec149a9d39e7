/** C-level types and conventions shared by every backend of the audio library:
    fixed-width integers, NULL-able values, the POSIX error numbers the backends
    return, and the "first failing call" rule of the backends' goto-error chains. */
module Native {

  /** A byte of sample data. */
  newtype byte = x: int | 0 <= x < 0x100

  type Uint8 = x: int | 0 <= x < 0x100
  type Uint16 = x: int | 0 <= x < 0x1_0000
  type Uint32 = x: int | 0 <= x < 0x1_0000_0000
  /** `size_t` on a 64-bit target. */
  type Size = x: int | 0 <= x < 0x1_0000_0000_0000_0000

  datatype Option<+T> = None | Some(value: T)

  /** A `const char *` that may be NULL. */
  type CStr = Option<string>

  /** POSIX error numbers, with the values Linux gives them. */
  const EEXIST: int := 17
  const EINVAL: int := 22
  const EPIPE: int := 32

  function Min(a: nat, b: nat): (r: nat)
    ensures r <= a && r <= b
    ensures r == a || r == b
  {
    if a < b then a else b
  }

  /** The index of the first status in `results` that `ok` rejects, if any: the
      call at which a chain of `if ((err = call()) < 0) goto error;` stops. */
  function FirstFailure(results: seq<int>, ok: int -> bool): (r: Option<nat>)
    ensures r.Some? ==> r.value < |results| && !ok(results[r.value])
    ensures r.Some? ==> forall j :: 0 <= j < r.value ==> ok(results[j])
    ensures r.None? <==> forall j :: 0 <= j < |results| ==> ok(results[j])
  {
    if |results| == 0 then None
    else if !ok(results[0]) then Some(0)
    else match FirstFailure(results[1..], ok)
      case None => None
      case Some(i) => Some(i + 1)
  }

  /** The C conversion of a signed value (an `ssize_t`) to `size_t`. */
  function AsSize(x: int): (r: Size)
    ensures (r - x) % 0x1_0000_0000_0000_0000 == 0
    ensures 0 <= x < 0x1_0000_0000_0000_0000 ==> r == x
    ensures -0x1_0000_0000_0000_0000 <= x < 0 ==> r == x + 0x1_0000_0000_0000_0000
  {
    x % 0x1_0000_0000_0000_0000
  }

  /** The conversion of an integer to a 32-bit `int` (two's complement truncation). */
  function AsInt(x: int): (r: int)
    ensures -0x8000_0000 <= r < 0x8000_0000
    ensures (r - x) % 0x1_0000_0000 == 0
    ensures -0x8000_0000 <= x < 0x8000_0000 ==> r == x
  {
    var m := x % 0x1_0000_0000;
    if m < 0x8000_0000 then m else m - 0x1_0000_0000
  }

  /** The usual arithmetic conversion of an `int` to `unsigned int`. */
  function AsUnsigned(x: int): (r: Uint32)
    ensures (r - x) % 0x1_0000_0000 == 0
    ensures 0 <= x < 0x1_0000_0000 ==> r == x
    ensures -0x1_0000_0000 <= x < 0 ==> r == x + 0x1_0000_0000
  {
    x % 0x1_0000_0000
  }
}
