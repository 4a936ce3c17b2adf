/** Shared vocabulary: optional values, Python evaluation that may raise,
    the IEEE view of a float used by `<`, and the string operations
    (`in` on strings, `str.lower`) the integration relies on. */
module Common {

  datatype Option<T> = None | Some(value: T)

  /** The outcome of evaluating a Python expression: a value, or an
      exception (TypeError, KeyError, IndexError, ValueError, ...) that
      the enclosing `try` turns into a fallback. */
  datatype Outcome<T> = Value(value: T) | Raised

  /** A double as seen by `<`: a finite number, +inf, or NaN. */
  datatype Float = Finite(value: real) | PosInf | NaN

  /** IEEE `a < b`: every comparison with NaN is false, nothing is below
      -inf here and nothing exceeds +inf. */
  predicate FloatLess(a: Float, b: Float)
  {
    match (a, b)
    case (Finite(x), Finite(y)) => x < y
    case (Finite(_), PosInf) => true
    case _ => false
  }

  // ---------------------------------------------------------------------
  // Substrings: Python's `k in s` for two strings.

  /** `k` occurs in `s` starting at position `i`. */
  predicate MatchAt(k: string, s: string, i: int)
  {
    0 <= i && i + |k| <= |s| && s[i..i + |k|] == k
  }

  /** Python's `k in s` on strings. */
  predicate IsSubstring(k: string, s: string)
  {
    exists i | 0 <= i <= |s| - |k| :: MatchAt(k, s, i)
  }

  lemma MatchedCharOccurs(k: string, s: string, i: int, c: char)
    requires MatchAt(k, s, i) && c in k
    ensures c in s
  {
    var j :| 0 <= j < |k| && k[j] == c;
    assert s[i..i + |k|][j] == c;
  }

  /** A character of `k` that does not occur in `s` rules out `k in s`. */
  lemma NotSubstringByChar(k: string, s: string, c: char)
    requires c in k && c !in s
    ensures !IsSubstring(k, s)
  {
    forall i | 0 <= i <= |s| - |k|
      ensures !MatchAt(k, s, i)
    {
      if MatchAt(k, s, i) {
        MatchedCharOccurs(k, s, i, c);
      }
    }
  }

  /** Substring is transitive: if `a in b` and `b in c` then `a in c`. */
  lemma {:induction false} SubstringTransitive(a: string, b: string, c: string)
    requires IsSubstring(a, b) && IsSubstring(b, c)
    ensures IsSubstring(a, c)
  {
    var i :| 0 <= i <= |b| - |a| && MatchAt(a, b, i);
    var j :| 0 <= j <= |c| - |b| && MatchAt(b, c, j);
    forall t | 0 <= t < |a|
      ensures c[j + i + t] == a[t]
    {
      assert b[i..i + |a|][t] == a[t];
      assert c[j..j + |b|][i + t] == b[i + t];
    }
    assert c[j + i..j + i + |a|] == a;
    assert MatchAt(a, c, j + i);
  }

  // ---------------------------------------------------------------------
  // Case folding: Python's `str.lower` on ASCII and Latin-1 letters.

  /** An upper-case letter of ASCII or of the Latin-1 block (À..Þ without ×). */
  predicate IsUpper(c: char)
  {
    ('A' <= c <= 'Z') || ('À' <= c <= 'Þ' && c != '×')
  }

  /** `c.lower()` for ASCII and Latin-1 letters; other characters are kept. */
  function LowerChar(c: char): (r: char)
    ensures !IsUpper(r)
    ensures IsUpper(c) ==> r as int == c as int + 32
    ensures !IsUpper(c) ==> r == c
  {
    if IsUpper(c) then (c as int + 32) as char else c
  }

  predicate IsLowercase(s: string)
  {
    forall i :: 0 <= i < |s| ==> !IsUpper(s[i])
  }

  /** `s.lower()`: position by position, the lower-case letter. */
  function Lower(s: string): (r: string)
    ensures |r| == |s|
    ensures forall i :: 0 <= i < |s| ==> r[i] == LowerChar(s[i])
  {
    seq(|s|, i requires 0 <= i < |s| => LowerChar(s[i]))
  }

  /** Lowering leaves nothing upper case and is idempotent; a string that
      is already lower case is its own lowering. */
  lemma LowerProperties(s: string)
    ensures IsLowercase(Lower(s))
    ensures Lower(Lower(s)) == Lower(s)
    ensures IsLowercase(s) ==> Lower(s) == s
  {
  }
}
