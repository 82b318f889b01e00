/** The two string operations the services rely on: `toLowerCase` and `includes`. */
module Text {

  /** `toLowerCase` on one character, for the ASCII letters. */
  function LowerChar(c: char): (l: char)
    ensures 'A' <= c <= 'Z' ==> 'a' <= l <= 'z' && l as int - c as int == 32
    ensures !('A' <= c <= 'Z') ==> l == c
  {
    if 'A' <= c <= 'Z' then (c as int + 32) as char else c
  }

  /** `String.prototype.toLowerCase`, character by character. */
  function ToLower(s: string): (r: string)
    ensures |r| == |s|
    ensures forall i :: 0 <= i < |s| ==> r[i] == LowerChar(s[i])
  {
    seq(|s|, i requires 0 <= i < |s| => LowerChar(s[i]))
  }

  /** `s.includes(part)`: `part` occurs somewhere in `s` as a contiguous block. */
  predicate Includes(s: string, part: string)
    decreases |s|
  {
    part <= s || (|s| > 0 && Includes(s[1..], part))
  }

  /** `words.some(w => s.includes(w))`. */
  predicate IncludesAny(s: string, words: seq<string>)
  {
    exists w :: w in words && Includes(s, w)
  }

  /** `part` occupies the window of `s` that starts at offset `i`. */
  predicate OccursAt(s: string, part: string, i: nat)
  {
    i + |part| <= |s| && s[i..i + |part|] == part
  }

  /** A window holding `part` makes `s` include it. */
  lemma {:induction false} IncludesAt(s: string, part: string, i: nat)
    requires OccursAt(s, part, i)
    ensures Includes(s, part)
    decreases i
  {
    if i > 0 {
      assert s[1..][i - 1..i - 1 + |part|] == s[i..i + |part|];
      IncludesAt(s[1..], part, i - 1);
    } else {
      assert part <= s;
    }
  }

  /** `Includes` means exactly: some window of `s` is `part`. */
  lemma {:induction false} IncludesIffOccurs(s: string, part: string)
    ensures Includes(s, part) <==> exists i: nat :: OccursAt(s, part, i)
    decreases |s|
  {
    if Includes(s, part) {
      if part <= s {
        assert OccursAt(s, part, 0);
      } else {
        IncludesIffOccurs(s[1..], part);
        var i: nat :| OccursAt(s[1..], part, i);
        assert s[1..][i..i + |part|] == s[i + 1..i + 1 + |part|];
        assert OccursAt(s, part, i + 1);
      }
    }
    if exists i: nat :: OccursAt(s, part, i) {
      var i: nat :| OccursAt(s, part, i);
      IncludesAt(s, part, i);
    }
  }

  /** A part holding a character that `s` lacks is not included in `s`. */
  lemma ForeignCharNotIncluded(s: string, part: string, j: nat)
    requires j < |part| && part[j] !in s
    ensures !Includes(s, part)
  {
    IncludesIffOccurs(s, part);
    forall i: nat ensures !OccursAt(s, part, i) {
      if i + |part| <= |s| {
        assert s[i..i + |part|][j] == s[i + j];
      }
    }
  }

  /** A part at least as long as the string is included only when it is the string. */
  lemma {:induction false} IncludesLongPart(s: string, part: string)
    requires |part| >= |s|
    ensures Includes(s, part) <==> part == s
    decreases |s|
  {
    if |s| > 0 {
      IncludesLongPart(s[1..], part);
    }
  }

  /** Every string includes itself (used where a name is compared with `===`). */
  lemma IncludesSelf(s: string)
    ensures Includes(s, s)
  {
    assert s <= s;
  }
}
