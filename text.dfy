/** Line-level string helpers: Python's `str.startswith` and `str.lower`. */
module Text {

  /** `line.startswith(prefix)`, character by character from the left. */
  predicate StartsWith(line: string, prefix: string)
  {
    |prefix| == 0 || (|line| > 0 && line[0] == prefix[0] && StartsWith(line[1..], prefix[1..]))
  }

  /** `StartsWith` holds exactly when the first |prefix| characters of `line` are `prefix`. */
  lemma {:induction false} StartsWithSlice(line: string, prefix: string)
    ensures StartsWith(line, prefix) <==> |prefix| <= |line| && line[..|prefix|] == prefix
  {
    if |prefix| > 0 && |line| > 0 {
      StartsWithSlice(line[1..], prefix[1..]);
      if |prefix| <= |line| {
        assert line[..|prefix|] == [line[0]] + line[1..][..|prefix| - 1];
        assert prefix == [prefix[0]] + prefix[1..];
      }
    }
  }

  /** Lower-cases one ASCII letter; every other character is left alone. */
  function LowerChar(c: char): char
  {
    if 'A' <= c <= 'Z' then (c as int - 'A' as int + 'a' as int) as char else c
  }

  /** `s.lower()`, restricted to ASCII letters: no capital is left, and `s` spells the result ignoring case. */
  function Lower(s: string): (r: string)
    ensures NoCapitals(r)
    ensures SpellsIgnoringCase(s, r)
  {
    seq(|s|, i requires 0 <= i < |s| => LowerChar(s[i]))
  }

  /** Upper-cases one ASCII letter; every other character is left alone. */
  function UpperChar(c: char): char
  {
    if 'a' <= c <= 'z' then (c as int - 'a' as int + 'A' as int) as char else c
  }

  /** `t` holds no ASCII capital letter, so it can be the result of `Lower`. */
  predicate NoCapitals(t: string)
  {
    forall i :: 0 <= i < |t| ==> !('A' <= t[i] <= 'Z')
  }

  /** `s` spells `t` with each of `t`'s letters in either case. */
  predicate SpellsIgnoringCase(s: string, t: string)
  {
    |s| == |t| && forall i :: 0 <= i < |s| ==> s[i] == t[i] || s[i] == UpperChar(t[i])
  }

  /**
   * Case-insensitive comparison: `s` lowers to `t` exactly when `t` has no
   * capitals and `s` spells `t` with each letter in either case.
   */
  lemma LowerEqualsIff(s: string, t: string)
    ensures Lower(s) == t <==> NoCapitals(t) && SpellsIgnoringCase(s, t)
  {
    if Lower(s) == t {
      forall i | 0 <= i < |t| ensures !('A' <= t[i] <= 'Z') {
        assert t[i] == LowerChar(s[i]);
      }
    }
    if NoCapitals(t) && SpellsIgnoringCase(s, t) {
      forall i | 0 <= i < |s| ensures Lower(s)[i] == t[i] {
        assert !('A' <= t[i] <= 'Z');
      }
    }
  }
}
