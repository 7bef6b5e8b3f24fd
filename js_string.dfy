/** The two JavaScript string methods the rule relies on. Dafny's `char` is a Unicode
    scalar value, while JavaScript strings are UTF-16 code units; the two agree here
    because the only strings searched for, `$` and `effector`, are ASCII and match the
    same positions in either encoding. */
module JsString {

  /** `s.startsWith(prefix)`: the first |prefix| characters of `s` are `prefix`. */
  function StartsWith(s: string, prefix: string): (r: bool)
    ensures r <==> |prefix| <= |s| && forall i :: 0 <= i < |prefix| ==> s[i] == prefix[i]
  {
    |prefix| <= |s| && s[..|prefix|] == prefix
  }

  /** `sub` occurs in `s` starting at index `i`. */
  ghost predicate OccursAt(s: string, sub: string, i: int) {
    0 <= i && i + |sub| <= |s| && s[i..i + |sub|] == sub
  }

  /** `s.includes(sub)`: tries every start position from left to right. */
  function Includes(s: string, sub: string): (r: bool)
    ensures StartsWith(s, sub) ==> r
    ensures r ==> |sub| <= |s|
    decreases |s|
  {
    StartsWith(s, sub) || (|s| > 0 && Includes(s[1..], sub))
  }

  /** A one-character prefix is a test of the first character. */
  lemma StartsWithChar(s: string, c: char)
    ensures StartsWith(s, [c]) <==> |s| > 0 && s[0] == c
  {
  }

  /** `includes` finds `sub` exactly when it occurs at some position of `s`. */
  lemma {:induction false} IncludesIff(s: string, sub: string)
    ensures Includes(s, sub) <==> exists i :: OccursAt(s, sub, i)
    decreases |s|
  {
    if |s| > 0 {
      IncludesIff(s[1..], sub);
    }
    if Includes(s, sub) {
      if StartsWith(s, sub) {
        assert OccursAt(s, sub, 0);
      } else {
        var t := s[1..];
        var j :| OccursAt(t, sub, j);
        assert s[j + 1..j + 1 + |sub|] == t[j..j + |sub|];
        assert OccursAt(s, sub, j + 1);
      }
    }
    if exists i :: OccursAt(s, sub, i) {
      var i :| OccursAt(s, sub, i);
      if i == 0 {
        assert s[..|sub|] == s[0..|sub|];
      } else {
        var t := s[1..];
        assert t[i - 1..i - 1 + |sub|] == s[i..i + |sub|];
        assert OccursAt(t, sub, i - 1);
      }
    }
  }

  /** An occurrence survives any text around it: this is what lets a module symbol name
      such as `"effector"` (with its quotes) or a longer path pass the `includes` test. */
  lemma IncludesInContext(before: string, s: string, after: string, sub: string)
    requires Includes(s, sub)
    ensures Includes(before + s + after, sub)
  {
    IncludesIff(s, sub);
    var i :| OccursAt(s, sub, i);
    var w := before + s + after;
    assert w[|before| + i..|before| + i + |sub|] == s[i..i + |sub|];
    assert OccursAt(w, sub, |before| + i);
    IncludesIff(w, sub);
  }

  /** Every character of an included string is a character of the including one. */
  lemma IncludesOnlyOwnChars(s: string, sub: string, c: char)
    requires Includes(s, sub) && c in sub
    ensures c in s
  {
  }
}
