/**
  A concrete stand-in for the platform's macro substitution: every macro name
  in the host's mapping, in mapping order, is replaced by its value the way
  Python's `str.replace` does it. The command builder does not depend on it;
  it only lets the unit-test vectors be evaluated.
 */
module Macros {

  /** Host macros as (name, value) pairs, in the mapping's iteration order. */
  type MacroList = seq<(string, string)>

  /** Does `key` occur in `s` as a contiguous substring? */
  predicate Occurs(key: string, s: string)
    decreases |s|
  {
    key <= s || (|s| > 0 && Occurs(key, s[1..]))
  }

  /** `value` before every character of `s` and at its end, as `s.replace("", value)`. */
  function Interleave(s: string, value: string): (r: string)
    ensures |r| == |s| + (|s| + 1) * |value|
  {
    if |s| == 0 then value else value + [s[0]] + Interleave(s[1..], value)
  }

  /** Python's `s.replace(key, value)`: non-overlapping occurrences, left to right. */
  function ReplaceAll(s: string, key: string, value: string): (r: string)
    decreases |s|
  {
    if |key| == 0 then Interleave(s, value)
    else if key <= s then value + ReplaceAll(s[|key|..], key, value)
    else if |s| == 0 then []
    else [s[0]] + ReplaceAll(s[1..], key, value)
  }

  /** Replaces each macro name by its value, one macro after the other. */
  function ReplaceMacros(s: string, macros: MacroList): string
    decreases |macros|
  {
    if |macros| == 0 then s
    else ReplaceMacros(ReplaceAll(s, macros[0].0, macros[0].1), macros[1..])
  }

  /** A string in which the key does not occur is left alone. */
  lemma {:induction false} ReplaceAllAbsent(s: string, key: string, value: string)
    requires !Occurs(key, s)
    ensures ReplaceAll(s, key, value) == s
    decreases |s|
  {
    if |s| > 0 {
      ReplaceAllAbsent(s[1..], key, value);
      assert s == [s[0]] + s[1..];
    }
  }

  /** A string that mentions no macro name is passed through unchanged. */
  lemma {:induction false} ReplaceMacrosWithoutNames(s: string, macros: MacroList)
    requires forall j :: 0 <= j < |macros| ==> !Occurs(macros[j].0, s)
    ensures ReplaceMacros(s, macros) == s
    decreases |macros|
  {
    if |macros| > 0 {
      ReplaceAllAbsent(s, macros[0].0, macros[0].1);
      ReplaceMacrosWithoutNames(s, macros[1..]);
    }
  }

  /** Characters that cannot begin the key are copied through. */
  lemma {:induction false} ReplaceAllSkipPrefix(p: string, s: string, key: string, value: string)
    requires |key| > 0 && key[0] !in p
    ensures ReplaceAll(p + s, key, value) == p + ReplaceAll(s, key, value)
  {
    if |p| > 0 {
      var t := p + s;
      assert t[0] == p[0] && p[0] != key[0];
      assert !(key <= t);
      assert t[1..] == p[1..] + s;
      ReplaceAllSkipPrefix(p[1..], s, key, value);
      calc {
        ReplaceAll(t, key, value);
        [p[0]] + ReplaceAll(p[1..] + s, key, value);
        [p[0]] + (p[1..] + ReplaceAll(s, key, value));
        ([p[0]] + p[1..]) + ReplaceAll(s, key, value);
        { assert [p[0]] + p[1..] == p; }
        p + ReplaceAll(s, key, value);
      }
    } else {
      assert p + s == s;
    }
  }

  /** An occurrence at the front is replaced and the scan resumes after it. */
  lemma ReplaceAllHit(key: string, s: string, value: string)
    requires |key| > 0
    ensures ReplaceAll(key + s, key, value) == value + ReplaceAll(s, key, value)
  {
    assert (key + s)[|key|..] == s;
  }

  /**
    A single occurrence of the key, between text that cannot begin it, is
    replaced by the value and nothing else changes.
   */
  lemma ReplaceAllOnce(p: string, key: string, q: string, value: string)
    requires |key| > 0 && key[0] !in p && key[0] !in q
    ensures ReplaceAll(p + key + q, key, value) == p + value + q
  {
    var rest := ReplaceAll(q, key, value);
    assert rest == q by {
      ReplaceAllSkipPrefix(q, [], key, value);
      assert q + [] == q;
      assert ReplaceAll([], key, value) == [];
    }
    assert ReplaceAll(key + q, key, value) == value + q by {
      ReplaceAllHit(key, q, value);
    }
    assert ReplaceAll(p + (key + q), key, value) == p + (value + q) by {
      ReplaceAllSkipPrefix(p, key + q, key, value);
    }
    assert p + key + q == p + (key + q);
    assert p + value + q == p + (value + q);
  }

  /** With a single macro, substitution is one `str.replace`. */
  lemma ReplaceMacrosSingle(s: string, key: string, value: string)
    ensures ReplaceMacros(s, [(key, value)]) == ReplaceAll(s, key, value)
  {
    assert [(key, value)][1..] == [];
  }
}
