/** The few pieces of Python's built-in semantics that the remote unit relies on:
    list indexing with negative indexes and `str.removeprefix`. */
module Python {

  datatype Option<T> = None | Some(value: T)

  /** Whether `xs[i]` succeeds on a Python list of length `len`
      (negative indexes count from the end). */
  predicate IndexOk(len: int, i: int) {
    -len <= i < len
  }

  /** Python's `xs[i]`: `None` stands for the `IndexError` it raises. */
  function Get<T>(xs: seq<T>, i: int): (r: Option<T>)
    ensures r.Some? <==> IndexOk(|xs|, i)
    ensures 0 <= i < |xs| ==> r == Some(xs[i])
    ensures -|xs| <= i < 0 ==> r == Some(xs[|xs| + i])
  {
    if 0 <= i < |xs| then Some(xs[i])
    else if -|xs| <= i < 0 then Some(xs[|xs| + i])
    else None
  }

  /** Python's `s.removeprefix(prefix)`. */
  function RemovePrefix(s: string, prefix: string): (r: string)
    ensures prefix <= s ==> prefix + r == s
    ensures !(prefix <= s) ==> r == s
  {
    if prefix <= s then s[|prefix|..] else s
  }
}
