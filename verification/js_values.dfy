/** JavaScript's `a || b` on the value kinds the application defaults with it:
    the empty string, the number 0 and `undefined` are falsy, so they fall
    back to the default; every other value is kept. */
module JsValues {
  import opened Wrappers

  function StrOr(s: string, d: string): string {
    if s != "" then s else d
  }

  function IntOr(n: int, d: int): int {
    if n != 0 then n else d
  }

  function RealOr(x: real, d: real): real {
    if x != 0.0 then x else d
  }

  /** An optional number: `undefined` and 0 both fall back. */
  function OptIntOr(n: Option<int>, d: int): int {
    if n.Some? && n.value != 0 then n.value else d
  }

  /** An optional string: `undefined` and "" both fall back. */
  function OptStrOr(s: Option<string>, d: string): string {
    if s.Some? && s.value != "" then s.value else d
  }

  /** An optional real number: `undefined` and 0 both fall back. */
  function OptRealOr(x: Option<real>, d: real): real {
    if x.Some? && x.value != 0.0 then x.value else d
  }
}
