/**
 The three string operations of Go's `strings` package that the mirror table
 relies on: `HasPrefix`, `Index` and `Replace` with a replacement count of one.
 Strings are sequences of characters; Go's strings are byte sequences, but
 every fragment the mirror table searches for is plain ASCII, so the two views
 agree on everything modelled here.
 */
module GoStrings {

  /** `strings.HasPrefix(s, prefix)`: `s` begins with `prefix`. */
  predicate HasPrefix(s: string, prefix: string)
  {
    |prefix| <= |s| && s[..|prefix|] == prefix
  }

  /** `sub` occurs in `s` starting at position `j`. */
  predicate OccursAt(s: string, sub: string, j: int)
  {
    0 <= j && j + |sub| <= |s| && s[j..j + |sub|] == sub
  }

  /** `strings.Index(s, sub)`: the position of the first occurrence of `sub`
      in `s`, or -1 when there is none. */
  function Index(s: string, sub: string): (r: int)
    ensures r == -1 || OccursAt(s, sub, r)
    ensures r == -1 ==> forall j :: !OccursAt(s, sub, j)
    ensures forall j :: 0 <= j < r ==> !OccursAt(s, sub, j)
    decreases |s|
  {
    if |s| < |sub| then
      -1
    else if s[..|sub|] == sub then
      0
    else
      assert s[0..|sub|] == s[..|sub|];
      ShiftOccurs(s, sub);
      var r' := Index(s[1..], sub);
      if r' < 0 then -1 else r' + 1
  }

  /** An occurrence in `s` at `j > 0` is an occurrence in `s[1..]` at `j - 1`. */
  lemma ShiftOccurs(s: string, sub: string)
    requires |s| > 0
    ensures forall j :: 1 <= j ==> (OccursAt(s, sub, j) <==> OccursAt(s[1..], sub, j - 1))
  {
  }

  /** `strings.Replace(s, target, replacement, 1)`: the first occurrence of `target` in `s`
      replaced by `replacement`; `s` itself when `target` does not occur. An empty `target`
      matches at the very beginning, so `replacement` is then put in front of `s`. */
  function ReplaceFirst(s: string, target: string, replacement: string): (r: string)
  {
    var i := Index(s, target);
    if i < 0 then s else s[..i] + replacement + s[i + |target|..]
  }

  /** When `s` has no occurrence of `target`, replacing leaves it as it is. */
  lemma ReplaceFirstAbsent(s: string, target: string, replacement: string)
    requires forall j :: !OccursAt(s, target, j)
    ensures ReplaceFirst(s, target, replacement) == s
  {
  }

  /** When `s` begins with `lead + target` and no character of `lead` can start
      an occurrence of `target`, the first occurrence of `target` is the one right
      after `lead`, and replacing it keeps `lead` and everything after `target`. */
  lemma ReplaceFirstAfterLead(s: string, lead: string, target: string, replacement: string)
    requires target != []
    requires HasPrefix(s, lead + target)
    requires forall j :: 0 <= j < |lead| ==> lead[j] != target[0]
    ensures ReplaceFirst(s, target, replacement) == lead + replacement + s[|lead| + |target|..]
  {
    var n := |lead|;
    assert s[..n + |target|] == lead + target;
    assert s[n..n + |target|] == s[..n + |target|][n..];
    assert OccursAt(s, target, n);
    forall j | 0 <= j < n
      ensures !OccursAt(s, target, j)
    {
      assert s[j] == s[..n + |target|][j] == lead[j];
    }
    var i := Index(s, target);
    assert i == n;
    assert s[..n] == s[..n + |target|][..n] == lead;
  }
}
