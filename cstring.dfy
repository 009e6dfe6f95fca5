/**
 * The two C runtime string functions the core relies on, over a buffer `s`
 * whose implicit terminator sits just after its last element.
 */
module CString {
  import opened Wrappers

  /** `wcslen`: the index of the first NUL in `s`, or `|s|` when only the implicit terminator ends it. */
  function Wcslen(s: seq<char>): (n: nat)
    ensures n <= |s|
    ensures forall i :: 0 <= i < n ==> s[i] != '\0'
    ensures n < |s| ==> s[n] == '\0'
  {
    if s == [] || s[0] == '\0' then 0 else 1 + Wcslen(s[1..])
  }

  /** Overwriting the character at `cut` with NUL ends the C string there when none comes earlier. */
  lemma {:induction false} TerminatedAt(s: seq<char>, cut: nat)
    requires cut < |s| && '\0' !in s[..cut]
    ensures Wcslen(s[cut := '\0']) == cut
  {
    if cut > 0 {
      assert s[0] in s[..cut];
      assert s[cut := '\0'][1..] == s[1..][cut - 1 := '\0'];
      assert s[1..][..cut - 1] == s[..cut][1..];
      TerminatedAt(s[1..], cut - 1);
    }
  }

  /** The terminator just past a buffer is found where the buffer's own first NUL, if any, is not. */
  lemma {:induction false} WcslenPrefix(s: seq<char>, n: nat)
    requires n < |s| && s[n] == '\0'
    ensures Wcslen(s) == Wcslen(s[..n])
  {
    if n > 0 && s[0] != '\0' {
      assert s[..n][1..] == s[1..][..n - 1];
      WcslenPrefix(s[1..], n - 1);
    }
  }

  /** The index of the last occurrence of `c` in `s`, if any. */
  function LastIndexOf(s: seq<char>, c: char): (r: Option<nat>)
    ensures r.None? <==> c !in s
    ensures r.Some? ==> r.value < |s| && s[r.value] == c
    ensures r.Some? ==> forall i :: r.value < i < |s| ==> s[i] != c
  {
    if s == [] then None
    else if s[|s| - 1] == c then Some(|s| - 1)
    else LastIndexOf(s[..|s| - 1], c)
  }

  /**
   * `wcsrchr`: the position of the last `c` in the C string held by `s`
   * (searching stops at its terminator, which itself matches a NUL `c`).
   */
  function Wcsrchr(s: seq<char>, c: char): (r: Option<nat>)
    ensures r.Some? ==> r.value <= Wcslen(s)
    ensures c != '\0' ==> (r.None? <==> c !in s[..Wcslen(s)])
    ensures c != '\0' && r.Some? ==> r.value < Wcslen(s) && s[r.value] == c && forall i :: r.value < i < Wcslen(s) ==> s[i] != c
  {
    if c == '\0' then Some(Wcslen(s)) else LastIndexOf(s[..Wcslen(s)], c)
  }
}
