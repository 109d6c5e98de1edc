/** The two pieces of Python's string and path library the core relies on:
    `str.lower()` restricted to ASCII, and POSIX `os.path.join` of two parts. */
module Strings {

  function LowerChar(c: char): char
  {
    if 'A' <= c <= 'Z' then (c as int + 32) as char else c
  }

  /** ASCII lower-casing, character by character. */
  function Lower(s: string): (r: string)
    ensures |r| == |s|
    ensures forall i :: 0 <= i < |s| ==> r[i] == LowerChar(s[i])
  {
    if s == [] then [] else [LowerChar(s[0])] + Lower(s[1..])
  }

  /** `s` and `t` spell the same word up to the case of ASCII letters. */
  predicate EqualIgnoringCase(s: string, t: string)
  {
    |s| == |t| && forall i :: 0 <= i < |s| ==> LowerChar(s[i]) == LowerChar(t[i])
  }

  lemma EqualIgnoringCaseIsEqualLower(s: string, t: string)
    ensures EqualIgnoringCase(s, t) <==> Lower(s) == Lower(t)
  {
  }

  predicate IsAbsolute(p: string)
  {
    |p| > 0 && p[0] == '/'
  }

  /** What `os.path.join(a, b)` puts in front of a relative `b`. */
  function DirPrefix(a: string): string
  {
    if a == "" || a[|a| - 1] == '/' then a else a + "/"
  }

  /** POSIX `os.path.join(a, b)`: an absolute `b` replaces `a`; otherwise a
      separator is inserted unless `a` is empty or already ends with one. */
  function Join(a: string, b: string): (r: string)
    ensures IsAbsolute(b) ==> r == b
    ensures !IsAbsolute(b) ==> r == DirPrefix(a) + b
    ensures |b| <= |r| && r[|r| - |b|..] == b
    ensures !IsAbsolute(b) ==> a <= r
  {
    if IsAbsolute(b) then b
    else if a == "" || a[|a| - 1] == '/' then a + b
    else a + "/" + b
  }
}
