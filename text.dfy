/** Character classes and string searches shared by the focus selector and the
    delay calculator of the RSVP engine. */
module Text {

  /** The paragraph-break token: the two characters backslash and `n`. */
  const Sentinel: string := "\\n"

  /** Letter or digit, the class `[\p{L}\p{N}]` the engine's regular expressions
      use. Stated exactly for the code points U+0000..U+00FF; no proof
      depends on characters above U+00FF. */
  predicate IsAlnum(c: char)
  {
    var n := c as int;
    ('0' <= c <= '9') || ('A' <= c <= 'Z') || ('a' <= c <= 'z')
    || n == 0xAA || n == 0xB2 || n == 0xB3 || n == 0xB5 || n == 0xB9 || n == 0xBA
    || (0xBC <= n <= 0xBE) || (0xC0 <= n <= 0xD6) || (0xD8 <= n <= 0xF6) || (0xF8 <= n <= 0xFF)
  }

  /** The token with every character that is not a letter or digit removed
      (`word.replace(/[^\p{L}\p{N}]/gu, '')`). */
  function Clean(w: string): (c: string)
    ensures |c| <= |w|
    ensures forall i :: 0 <= i < |c| ==> IsAlnum(c[i])
  {
    if w == [] then []
    else (if IsAlnum(w[0]) then [w[0]] else []) + Clean(w[1..])
  }

  /** Stripping distributes over concatenation. */
  lemma {:induction false} CleanAppend(a: string, b: string)
    ensures Clean(a + b) == Clean(a) + Clean(b)
  {
    if a == [] {
      assert a + b == b;
    } else {
      assert (a + b)[0] == a[0];
      assert (a + b)[1..] == a[1..] + b;
      CleanAppend(a[1..], b);
    }
  }

  /** The stripped token is empty exactly when the token holds no letter or digit. */
  lemma {:induction false} CleanEmptyIff(w: string)
    ensures Clean(w) == [] <==> forall i :: 0 <= i < |w| ==> !IsAlnum(w[i])
  {
    if w != [] {
      CleanEmptyIff(w[1..]);
      assert forall i :: 1 <= i < |w| ==> w[i] == w[1..][i - 1];
    }
  }

  /** Stripping is idempotent: a stripped token has nothing left to strip. */
  lemma {:induction false} CleanIdempotent(w: string)
    ensures Clean(Clean(w)) == Clean(w)
  {
    if w != [] {
      CleanIdempotent(w[1..]);
      if IsAlnum(w[0]) {
        CleanAppend([w[0]], Clean(w[1..]));
        assert [w[0]][1..] == [];
      } else {
        assert Clean(w) == Clean(w[1..]);
      }
    }
  }

  /** `pat` occurs in `s` starting at position `i`. */
  ghost predicate OccursAt(s: string, pat: string, i: int)
  {
    0 <= i && i + |pat| <= |s| && s[i..i + |pat|] == pat
  }

  /** `s.includes(pat)`: a left-to-right substring search. */
  function Includes(s: string, pat: string): bool
    decreases |s|
  {
    if |pat| > |s| then false
    else if s[..|pat|] == pat then true
    else Includes(s[1..], pat)
  }

  /** The search finds `pat` exactly when it occurs somewhere in `s`. */
  lemma {:induction false} IncludesIff(s: string, pat: string)
    ensures Includes(s, pat) <==> exists i :: OccursAt(s, pat, i)
  {
    if |pat| > |s| {
      forall i ensures !OccursAt(s, pat, i) { }
    } else if s[..|pat|] == pat {
      assert OccursAt(s, pat, 0);
    } else {
      IncludesIff(s[1..], pat);
      if Includes(s[1..], pat) {
        var i :| OccursAt(s[1..], pat, i);
        assert s[i + 1..i + 1 + |pat|] == s[1..][i..i + |pat|];
        assert OccursAt(s, pat, i + 1);
      } else {
        forall i | OccursAt(s, pat, i) ensures false {
          assert i != 0;
          assert s[1..][i - 1..i - 1 + |pat|] == s[i..i + |pat|];
          assert OccursAt(s[1..], pat, i - 1);
        }
      }
    }
  }

  /** For a one-character pattern the search is membership. */
  lemma {:induction false} IncludesChar(s: string, c: char)
    ensures Includes(s, [c]) <==> c in s
  {
    if s != [] {
      IncludesChar(s[1..], c);
      assert s == [s[0]] + s[1..];
    }
  }
}
