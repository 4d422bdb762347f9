/** Shared vocabulary of the model and the helpers of package `util`:
    optional values, error returns, panics, Go `interface{}` values,
    64-bit integers, `Must`, `CheckError` and `FindStringInGeneric`. */
module Util {

  datatype Option<+T> = None | Some(value: T)

  /** A Go `error` value; only its message is kept. */
  datatype Error = Error(msg: string)

  /** A Go `(T, error)` return pair where exactly one half is meaningful. */
  datatype Result<+T> = Ok(value: T) | Err(error: Error)

  /** What a Go call does: it returns a value, or it panics with an error. */
  datatype Outcome<+T> = Return(value: T) | Panic(error: Error)

  const MaxInt64: int := 0x7fff_ffff_ffff_ffff
  const MinInt64: int := -0x8000_0000_0000_0000
  const TwoTo64: int := 0x1_0000_0000_0000_0000

  /** Go's `int` on a 64-bit platform. */
  type Int64 = x: int | MinInt64 <= x <= MaxInt64

  /** Two's-complement wrap-around of a mathematical integer to 64 bits,
      as a Go `int` addition or multiplication performs it. */
  function Wrap64(x: int): (r: Int64)
    ensures (r - x) % TwoTo64 == 0
    ensures MinInt64 <= x <= MaxInt64 ==> r == x
  {
    var m := x % TwoTo64;
    if m <= MaxInt64 then m else m - TwoTo64
  }

  /** A Go `interface{}` value, as it can appear in JWT claims, in the
      authorities slice or in a `context.Context`. Only the distinctions the
      code makes are kept: a string, an `int`, `nil`, a `[]interface{}`,
      and any other dynamic type. */
  datatype Item =
    | Str(s: string)
    | Int(n: Int64)
    | Nil
    | List(items: seq<Item>)
    | OtherValue(tag: nat)

  /** `util.Must`: panics with `err` when it is non-nil, otherwise returns false. */
  function Must(err: Option<Error>): (r: Outcome<bool>)
    ensures r.Panic? <==> err.Some?
    ensures r.Panic? ==> r.error == err.value
    ensures r.Return? ==> !r.value
  {
    match err
    case Some(e) => Panic(e)
    case None => Return(false)
  }

  /** `util.CheckError`: panics with `err` when it is non-nil, otherwise does nothing. */
  function CheckError(err: Option<Error>): (r: Outcome<()>)
    ensures r.Panic? <==> err.Some?
    ensures r.Panic? ==> r.error == err.value
  {
    match err
    case Some(e) => Panic(e)
    case None => Return(())
  }

  /** Index of the first item of `slice` that is the string `val`, or -1.
      A Go comparison `item == val` between an `interface{}` and a string
      holds only when the item's dynamic type is string with the same
      contents, so items of any other type are never found. */
  function IndexOf(slice: seq<Item>, val: string): (r: int)
    ensures -1 <= r < |slice|
    ensures 0 <= r ==> slice[r] == Str(val)
    ensures 0 <= r ==> forall j :: 0 <= j < r ==> slice[j] != Str(val)
    ensures r == -1 <==> Str(val) !in slice
  {
    if |slice| == 0 then -1
    else if slice[0] == Str(val) then 0
    else
      var k := IndexOf(slice[1..], val);
      assert slice == [slice[0]] + slice[1..];
      if k < 0 then -1 else k + 1
  }

  /** `util.FindStringInGeneric`: scans `slice` from the front and stops at
      the first item equal to `val`. */
  method FindStringInGeneric(slice: seq<Item>, val: string) returns (i: int, found: bool)
    ensures found ==> 0 <= i < |slice| && slice[i] == Str(val)
    ensures found ==> forall j :: 0 <= j < i ==> slice[j] != Str(val)
    ensures !found <==> Str(val) !in slice
    ensures !found ==> i == -1
    ensures i == IndexOf(slice, val)
  {
    var k := 0;
    while k < |slice|
      invariant 0 <= k <= |slice|
      invariant forall j :: 0 <= j < k ==> slice[j] != Str(val)
    {
      if slice[k] == Str(val) {
        return k, true;
      }
      k := k + 1;
    }
    return -1, false;
  }
}
