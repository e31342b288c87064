/** Text primitives the query router and the SQL filters rely on: ASCII lower-casing
    (Python's `str.lower` and SQLite's case-insensitive LIKE restricted to ASCII) and
    substring containment (Python's `in` on strings). */
module Text {

  function LowerChar(c: char): (r: char)
    ensures 'A' <= c <= 'Z' ==> r as int == c as int + 32
    ensures !('A' <= c <= 'Z') ==> r == c
    ensures !('A' <= r <= 'Z')
  {
    if 'A' <= c <= 'Z' then (c as int + 32) as char else c
  }

  /** `s.lower()` on the ASCII range. */
  function Lower(s: string): string {
    seq(|s|, i requires 0 <= i < |s| => LowerChar(s[i]))
  }

  predicate NoUpper(s: string) {
    forall i :: 0 <= i < |s| ==> !('A' <= s[i] <= 'Z')
  }

  lemma LowerHasNoUpper(s: string)
    ensures NoUpper(Lower(s))
  {
  }

  /** Lower-casing is idempotent, so matching against an already lower-cased
      keyword is the same as matching case-insensitively. */
  lemma LowerIdempotent(s: string)
    ensures Lower(Lower(s)) == Lower(s)
  {
  }

  lemma LowerOfLower(s: string)
    requires NoUpper(s)
    ensures Lower(s) == s
  {
  }

  /** Lowering works character by character, so it commutes with taking a prefix. */
  lemma LowerPrefix(s: string, k: nat)
    requires k <= |s|
    ensures Lower(s)[..k] == Lower(s[..k])
  {
  }

  /** `t in s` for Python strings: some window of `s` equals `t`. */
  function Contains(s: string, t: string): bool
  {
    t <= s || (|s| > 0 && Contains(s[1..], t))
  }

  ghost predicate OccursAt(s: string, t: string, i: int) {
    0 <= i && i + |t| <= |s| && s[i..i + |t|] == t
  }

  /** The recursive test agrees with the window definition, in both directions. */
  lemma {:induction false} ContainsIff(s: string, t: string)
    ensures Contains(s, t) <==> exists i :: OccursAt(s, t, i)
  {
    if t <= s {
      assert s[0..|t|] == t;
      assert OccursAt(s, t, 0);
    } else if |s| == 0 {
      assert |t| > 0;
    } else {
      ContainsIff(s[1..], t);
      if Contains(s[1..], t) {
        var i :| OccursAt(s[1..], t, i);
        assert s[i + 1..i + 1 + |t|] == s[1..][i..i + |t|];
        assert OccursAt(s, t, i + 1);
      } else {
        forall i ensures !OccursAt(s, t, i) {
          if i == 0 && |t| <= |s| {
            assert s[..|t|] == s[i..i + |t|];
          } else if 0 < i && i + |t| <= |s| {
            assert s[1..][i - 1..i - 1 + |t|] == s[i..i + |t|];
            assert !OccursAt(s[1..], t, i - 1);
          }
        }
      }
    }
  }

  lemma ContainsAt(s: string, t: string, i: int)
    requires OccursAt(s, t, i)
    ensures Contains(s, t)
  {
    ContainsIff(s, t);
  }

  /** SQLite's default `LIKE '%pat%'`: a substring test that ignores ASCII case. */
  function Like(s: string, pat: string): bool {
    Contains(Lower(s), Lower(pat))
  }
}
