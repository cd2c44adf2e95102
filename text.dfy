/**
 * The string primitives the analyzer in ai_service.py relies on:
 * `str.isspace` (through `str.split` and `str.strip`), `str.lower`,
 * the substring test `kw in text`, and the word count `len(text.split())`.
 */
module Text {

  /** Python's `str.isspace`: the 29 code points `str.split()` and `str.strip()` treat as whitespace. */
  predicate IsSpace(c: char)
  {
    var n := c as int;
    || (0x09 <= n <= 0x0D)
    || (0x1C <= n <= 0x20)
    || n == 0x85 || n == 0xA0 || n == 0x1680
    || (0x2000 <= n <= 0x200A)
    || n == 0x2028 || n == 0x2029 || n == 0x202F || n == 0x205F || n == 0x3000
  }

  /** A string holding nothing but whitespace: `not text.strip()` in Python. */
  predicate IsBlank(s: string)
  {
    forall i :: 0 <= i < |s| ==> IsSpace(s[i])
  }

  /**
   * `str.lower` on one character, for the Latin letters Vietnamese text is
   * written in: Basic Latin, Latin-1, Latin Extended-A (Ă, Đ, Ĩ, Ũ among
   * them; İ, which lower-cases to two characters, is left alone), Ơ and Ư,
   * and the Latin Extended Additional block with its precomposed tone marks.
   * Lower-casing changes only letters, so it never turns whitespace into
   * something else or anything into whitespace.
   */
  function LowerChar(c: char): (d: char)
    ensures IsSpace(d) == IsSpace(c)
    ensures d != c ==> !IsSpace(c)
  {
    var n := c as int;
    if 'A' <= c <= 'Z' || (0xC0 <= n <= 0xDE && n != 0xD7) then (n + 0x20) as char
    else if ((0x100 <= n <= 0x137 && n != 0x130) || 0x14A <= n <= 0x177) && n % 2 == 0 then (n + 1) as char
    else if (0x139 <= n <= 0x148 || 0x179 <= n <= 0x17E) && n % 2 == 1 then (n + 1) as char
    else if n == 0x178 then 0xFF as char
    else if n == 0x1A0 || n == 0x1AF then (n + 1) as char
    else if (0x1E00 <= n <= 0x1E95 || 0x1EA0 <= n <= 0x1EFF) && n % 2 == 0 then (n + 1) as char
    else if n == 0x1E9E then 0xDF as char
    else c
  }

  /** `text.lower()`, character by character. */
  function Lower(s: string): (r: string)
    ensures |r| == |s|
    ensures forall i :: 0 <= i < |s| ==> IsSpace(r[i]) == IsSpace(s[i])
  {
    seq(|s|, i requires 0 <= i < |s| => LowerChar(s[i]))
  }

  /** Python's `p in s` on strings: `p` is a substring of `s` (the empty string is in every string). */
  function Occurs(p: string, s: string): bool
    decreases |s|
  {
    p <= s || (s != [] && Occurs(p, s[1..]))
  }

  /** `p` sits in `s` at index `i`. */
  predicate OccursAt(p: string, s: string, i: int)
  {
    0 <= i && i + |p| <= |s| && s[i..i + |p|] == p
  }

  /** No two adjacent characters of `s` are `a` followed by `b`. */
  predicate PairFree(s: string, a: char, b: char)
    decreases |s|
  {
    |s| < 2 || (!(s[0] == a && s[1] == b) && PairFree(s[1..], a, b))
  }

  /** Python's `len(s.split())`: the number of maximal runs of non-whitespace characters. */
  function WordCount(s: string): nat
  {
    WordsFrom(s, true)
  }

  /** Words of `s`, where `afterSpace` says whether the character before `s` was whitespace (or absent). */
  function WordsFrom(s: string, afterSpace: bool): nat
    decreases |s|
  {
    if s == [] then 0
    else if IsSpace(s[0]) then WordsFrom(s[1..], true)
    else (if afterSpace then 1 else 0) + WordsFrom(s[1..], false)
  }

  /** Lower-casing keeps every word boundary, so it keeps the word count. */
  lemma {:induction false} WordsFromLower(s: string, afterSpace: bool)
    ensures WordsFrom(Lower(s), afterSpace) == WordsFrom(s, afterSpace)
    decreases |s|
  {
    if s != [] {
      assert Lower(s)[1..] == Lower(s[1..]);
      WordsFromLower(s[1..], true);
      WordsFromLower(s[1..], false);
    }
  }

  /** The recursive substring test agrees with "some window of `s` equals `p`". */
  lemma {:induction false} OccursIff(p: string, s: string)
    ensures Occurs(p, s) <==> exists i :: OccursAt(p, s, i)
    decreases |s|
  {
    if p <= s {
      assert OccursAt(p, s, 0);
    } else if s == [] {
    } else {
      OccursIff(p, s[1..]);
      if Occurs(p, s[1..]) {
        var i :| OccursAt(p, s[1..], i);
        assert s[i + 1..i + 1 + |p|] == p;
        assert OccursAt(p, s, i + 1);
      }
      if exists i :: OccursAt(p, s, i) {
        var i :| OccursAt(p, s, i);
        assert i != 0;
        assert s[1..][i - 1..i - 1 + |p|] == p;
        assert OccursAt(p, s[1..], i - 1);
      }
    }
  }

  /** Splitting finds no word exactly when the text is blank, whatever came before it. */
  lemma {:induction false} WordsFromBlank(s: string, afterSpace: bool)
    ensures IsBlank(s) ==> WordsFrom(s, afterSpace) == 0
    ensures !IsBlank(s) ==> WordsFrom(s, true) > 0
    decreases |s|
  {
    if s != [] {
      WordsFromBlank(s[1..], true);
      WordsFromBlank(s[1..], false);
      if IsBlank(s) {
        assert IsSpace(s[0]);
        assert IsBlank(s[1..]) by {
          forall i | 0 <= i < |s[1..]| ensures IsSpace(s[1..][i]) {
            assert s[1..][i] == s[i + 1];
          }
        }
      } else if IsSpace(s[0]) {
        assert !IsBlank(s[1..]) by {
          var k :| 0 <= k < |s| && !IsSpace(s[k]);
          assert s[1..][k - 1] == s[k];
        }
      }
    }
  }

  /** `len(text.split()) == 0` exactly when `not text.strip()`. */
  lemma WordCountZeroIffBlank(s: string)
    ensures WordCount(s) == 0 <==> IsBlank(s)
  {
    WordsFromBlank(s, true);
  }

  /**
   * A phrase holding a non-whitespace character can only occur in the lower-cased
   * text when the text has at least one word, so the division by the word count
   * in the sentiment score never divides by zero.
   */
  lemma HitNeedsWord(p: string, s: string, j: nat)
    requires j < |p| && !IsSpace(p[j])
    requires Occurs(p, Lower(s))
    ensures WordCount(s) > 0
  {
    OccursIff(p, Lower(s));
    var i :| OccursAt(p, Lower(s), i);
    assert Lower(s)[i + j] == p[j];
    assert !IsSpace(s[i + j]);
    WordCountZeroIffBlank(s);
  }

  /** A phrase cannot occur in a text in which its first two characters are never adjacent. */
  lemma {:induction false} PairFreeNoOccurs(p: string, s: string)
    requires |p| >= 2 && PairFree(s, p[0], p[1])
    ensures !Occurs(p, s)
    decreases |s|
  {
    if |s| >= 2 {
      PairFreeNoOccurs(p, s[1..]);
    } else if s != [] {
      assert !Occurs(p, s[1..]);
    }
  }

  /** A phrase longer than the text cannot occur in it; one of the same length occurs only as the whole text. */
  lemma {:induction false} OccursByLength(p: string, s: string)
    ensures |s| < |p| ==> !Occurs(p, s)
    ensures |s| == |p| ==> (Occurs(p, s) <==> p == s)
  {
    OccursIff(p, s);
    if |s| == |p| && Occurs(p, s) {
      var i :| OccursAt(p, s, i);
      assert s[i..i + |p|] == s;
    }
  }
}
