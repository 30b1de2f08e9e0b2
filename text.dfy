/** String helpers with Python's meaning: `str.strip()`, `in`, `startswith`,
    `endswith` and the code-point order used by `sorted()`. */
module Text {

  /** The characters Python's `str.strip()` removes when called without arguments
      (`str.isspace()`: ASCII whitespace, the information separators and the Unicode spaces). */
  predicate IsSpace(c: char) {
    var n := c as int;
    (9 <= n <= 13) || (28 <= n <= 32) || n == 0x85 || n == 0xA0 || n == 0x1680
    || (0x2000 <= n <= 0x200A) || n == 0x2028 || n == 0x2029 || n == 0x202F
    || n == 0x205F || n == 0x3000
  }

  predicate AllSpace(s: string) {
    forall i :: 0 <= i < |s| ==> IsSpace(s[i])
  }

  function StripStart(s: string): string {
    if s != [] && IsSpace(s[0]) then StripStart(s[1..]) else s
  }

  function StripEnd(s: string): string {
    if s != [] && IsSpace(s[|s| - 1]) then StripEnd(s[..|s| - 1]) else s
  }

  /** Python's `s.strip()`. */
  function Strip(s: string): string {
    StripEnd(StripStart(s))
  }

  lemma {:induction false} StripStartEmpty(s: string)
    ensures StripStart(s) == [] <==> AllSpace(s)
  {
    if s != [] && IsSpace(s[0]) {
      StripStartEmpty(s[1..]);
      assert AllSpace(s[1..]) ==> AllSpace(s) by {
        if AllSpace(s[1..]) {
          forall i | 0 <= i < |s| ensures IsSpace(s[i]) {
            if i > 0 { assert s[i] == s[1..][i - 1]; }
          }
        }
      }
    }
  }

  lemma {:induction false} StripEndEmpty(s: string)
    ensures StripEnd(s) == [] <==> AllSpace(s)
  {
    if s != [] && IsSpace(s[|s| - 1]) {
      var t := s[..|s| - 1];
      StripEndEmpty(t);
      assert AllSpace(t) ==> AllSpace(s) by {
        if AllSpace(t) {
          forall i | 0 <= i < |s| ensures IsSpace(s[i]) {
            if i < |s| - 1 { assert s[i] == t[i]; }
          }
        }
      }
    }
  }

  lemma {:induction false} StripStartKeepsSpaceOnly(s: string)
    ensures AllSpace(StripStart(s)) ==> AllSpace(s)
  {
    if s != [] && IsSpace(s[0]) {
      StripStartKeepsSpaceOnly(s[1..]);
      if AllSpace(StripStart(s)) {
        forall i | 0 <= i < |s| ensures IsSpace(s[i]) {
          if i > 0 { assert s[i] == s[1..][i - 1]; }
        }
      }
    }
  }

  /** `s.strip()` is empty exactly when every character of `s` is whitespace
      (which includes the empty string). */
  lemma StripEmptyIffAllSpace(s: string)
    ensures Strip(s) == [] <==> AllSpace(s)
  {
    StripEndEmpty(StripStart(s));
    StripStartEmpty(s);
    StripStartKeepsSpaceOnly(s);
    if AllSpace(s) {
      assert StripStart(s) == [];
    }
  }

  /** Python's `p in s` for strings: `p` occurs in `s` at some position. */
  predicate Contains(s: string, p: string) {
    exists i | 0 <= i <= |s| :: OccursAt(s, p, i)
  }

  predicate OccursAt(s: string, p: string, i: int) {
    0 <= i && i + |p| <= |s| && s[i..i + |p|] == p
  }

  predicate StartsWith(s: string, p: string) {
    |p| <= |s| && s[..|p|] == p
  }

  predicate EndsWith(s: string, p: string) {
    |p| <= |s| && s[|s| - |p|..] == p
  }

  /** Python's `a <= b` on strings: lexicographic order of code points. */
  predicate StrLe(a: string, b: string) {
    a == [] || (b != [] && (a[0] < b[0] || (a[0] == b[0] && StrLe(a[1..], b[1..]))))
  }

  lemma {:induction false} StrLeTotal(a: string, b: string)
    ensures StrLe(a, b) || StrLe(b, a)
  {
    if a != [] && b != [] && a[0] == b[0] {
      StrLeTotal(a[1..], b[1..]);
    }
  }

  lemma {:induction false} StrLeTransitive(a: string, b: string, c: string)
    requires StrLe(a, b) && StrLe(b, c)
    ensures StrLe(a, c)
  {
    if a != [] && b != [] && c != [] && a[0] == b[0] == c[0] {
      StrLeTransitive(a[1..], b[1..], c[1..]);
    }
  }
}
