/** NUL-terminated strings in character arrays. */
module CStrings {
  const NUL: char := '\0'

  /** The characters before the first NUL. */
  function CStr(s: string): (r: string)
    ensures |r| <= |s| && r == s[..|r|] && NUL !in r
    ensures |r| < |s| ==> s[|r|] == NUL
  {
    if s == [] || s[0] == NUL then [] else [s[0]] + CStr(s[1..])
  }

  predicate Terminated(s: string) {
    NUL in s
  }

  lemma {:induction false} CStrIs(s: string, n: nat)
    requires n < |s| && s[n] == NUL && NUL !in s[..n]
    ensures CStr(s) == s[..n]
  {
    if n > 0 {
      assert s[..n][0] == s[0];
      assert s[1..][..n - 1] == s[..n][1..];
      CStrIs(s[1..], n - 1);
    }
  }

  method StrLen(a: array<char>) returns (n: nat)
    requires Terminated(a[..])
    ensures n == |CStr(a[..])| < a.Length && a[n] == NUL
  {
    n := 0;
    while a[n] != NUL
      invariant n < a.Length && NUL !in a[..n]
      decreases a.Length - n
    {
      n := n + 1;
      assert exists k :: 0 <= k < a.Length && a[..][k] == NUL && a[k] == NUL;
    }
    CStrIs(a[..], n);
  }

  /** What `sprintf` and `snprintf` with enough room leave at `at`: the text and a NUL. */
  method WriteAt(a: array<char>, at: nat, text: string)
    requires at + |text| < a.Length
    modifies a
    ensures a[..at] == old(a[..at])
    ensures a[at..at + |text|] == text && a[at + |text|] == NUL
    ensures a[at + |text| + 1..] == old(a[at + |text| + 1..])
  {
    for i := 0 to |text|
      invariant a[..at] == old(a[..at])
      invariant a[at..at + i] == text[..i]
      invariant a[at + i..] == old(a[at + i..])
    {
      a[at + i] := text[i];
    }
    a[at + |text|] := NUL;
  }
}
