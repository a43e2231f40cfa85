/** The pieces of the JavaScript runtime the application leans on, stated in
    Dafny's terms: optional values, thrown values, `trim`-style whitespace,
    the `||` default idiom on strings and `Array.prototype.slice`. */
module Js {

  datatype Option<T> = None | Some(value: T)

  /** What a rejected promise delivers to a `catch`: an `Error` object with
      its message, or any other thrown value. */
  datatype Thrown = ErrorObject(message: string) | NonError

  /** `err instanceof Error ? err.message : fallback`. */
  function MessageOf(t: Thrown, fallback: string): string
  {
    match t
    case ErrorObject(m) => m
    case NonError => fallback
  }

  /** The characters `String.prototype.trim` strips and the regex class `\s`
      matches, restricted to ASCII. */
  predicate IsSpace(c: char)
  {
    c == ' ' || c == '\t' || c == '\n' || c == '\r' || c == '\U{000B}' || c == '\U{000C}'
  }

  /** `s.trim() === ""`. */
  predicate Blank(s: string)
  {
    forall i :: 0 <= i < |s| ==> IsSpace(s[i])
  }

  /** `o || fallback` where `o` is an optional string: a missing value and the
      empty string are both falsy. */
  function OrElse(o: Option<string>, fallback: string): (r: string)
    ensures r == fallback || (o == Some(r) && r != "")
    ensures o.Some? && o.value != "" ==> r == o.value
  {
    if o.Some? && o.value != "" then o.value else fallback
  }

  /** Truthiness of an optional string such as `errors[field]`. */
  predicate Truthy(o: Option<string>)
  {
    o.Some? && o.value != ""
  }

  /** How `slice` turns a possibly negative argument into an index of a
      sequence of length `n`. */
  function SliceIndex(i: int, n: nat): (k: nat)
    ensures k <= n
    ensures 0 <= i <= n ==> k == i
    ensures i > n ==> k == n
  {
    if i < 0 then (if n + i < 0 then 0 else n + i) else if i > n then n else i
  }

  /** `s.slice(start, end)`. */
  function Slice<T>(s: seq<T>, start: int, end: int): (r: seq<T>)
    ensures |r| <= |s|
  {
    var lo, hi := SliceIndex(start, |s|), SliceIndex(end, |s|);
    if lo < hi then s[lo..hi] else []
  }

  /** `toUpperCase` on one character, restricted to ASCII letters. */
  function AsciiUpper(c: char): (u: char)
    ensures 'a' <= c <= 'z' ==> 'A' <= u <= 'Z'
    ensures !('a' <= c <= 'z') ==> u == c
  {
    if 'a' <= c <= 'z' then (c as int - 32) as char else c
  }
}
