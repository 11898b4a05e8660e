/** Types shared by every part of the model: the unsigned 32-bit integers the
    graphics API speaks in, opaque handles, result codes, and the program's
    error values (every failure in the program is a thrown exception carrying
    a message). */
module VkTypes {

  /** The API's `uint32_t`. */
  type uint32 = x: int | 0 <= x < 0x1_0000_0000

  const Uint32Max: uint32 := 0xFFFF_FFFF

  /** Conversion of a C++ `int` to `uint32_t` (`static_cast`): reduction modulo 2^32. */
  function ToUint32(x: int): (r: uint32)
    ensures 0 <= x <= Uint32Max ==> r == x
    ensures (r - x) % 0x1_0000_0000 == 0
  {
    x % 0x1_0000_0000
  }

  /** An opaque object handle; 0 is `VK_NULL_HANDLE`. */
  type Handle = nat

  const NullHandle: Handle := 0

  /** `VkResult` codes the model distinguishes; every other code is an error. */
  type VkResult = int

  const VkSuccess: VkResult := 0
  const VkSuboptimalKhr: VkResult := 1000001003
  const VkErrorOutOfDateKhr: VkResult := -1000001004

  datatype Option<T> = None | Some(value: T)

  /** `std::ranges::find_if`: the index of the first element satisfying `p`,
      or `None` where the source compares against `end()`. */
  function FindIf<T>(s: seq<T>, p: T -> bool): (r: Option<nat>)
    ensures r.Some? ==> r.value < |s| && p(s[r.value])
    ensures r.Some? ==> forall j :: 0 <= j < r.value ==> !p(s[j])
    ensures r.None? <==> forall j :: 0 <= j < |s| ==> !p(s[j])
  {
    if |s| == 0 then None
    else if p(s[0]) then Some(0)
    else match FindIf(s[1..], p)
      case None => None
      case Some(k) => Some(k + 1)
  }

  /** The exceptions the program throws: `std::runtime_error` with its message,
      and `std::bad_optional_access` from `optional::value()` on an empty optional. */
  datatype Error = RuntimeError(message: string) | BadOptionalAccess

  datatype Result<T> = Ok(value: T) | Err(error: Error)

  /** The outcome of a `void` operation that may throw. */
  datatype Outcome = Pass | Fail(error: Error)

  /** `strncmp(a, b, n) == 0` for NUL-terminated strings whose characters are
      `a` and `b`: the first `n` characters agree, the terminator included. */
  function StrnEqual(a: string, b: string, n: nat): (r: bool)
    ensures |a| < n && |b| < n ==> (r <==> a == b)
    ensures n <= |a| && n <= |b| ==> (r <==> a[..n] == b[..n])
    ensures (|a| < n) != (|b| < n) ==> !r
  {
    a[..if |a| < n then |a| else n] == b[..if |b| < n then |b| else n]
  }

  lemma StrnEqualShort(a: string, b: string, n: nat)
    requires |b| < n
    ensures StrnEqual(a, b, n) <==> a == b
  {
    if StrnEqual(a, b, n) {
      assert |a| < n;
      assert a == a[..|a|];
    }
  }
}
