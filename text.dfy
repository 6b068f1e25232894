/** String helpers used by the keyword filter: lower-casing and substring search. */
module Text {

  predicate IsUpper(c: char)
  {
    'A' <= c <= 'Z'
  }

  function LowerChar(c: char): char
  {
    if IsUpper(c) then (c as int + 32) as char else c
  }

  /** Lower-casing of a string, for the ASCII letters A to Z. */
  function Lower(s: string): (r: string)
    ensures |r| == |s|
    ensures forall i :: 0 <= i < |r| ==> !IsUpper(r[i])
    ensures forall i :: 0 <= i < |r| ==> IsUpper(s[i]) || r[i] == s[i]
    ensures forall i :: 0 <= i < |r| ==> IsUpper(s[i]) ==> r[i] as int == s[i] as int + 32
  {
    seq(|s|, i requires 0 <= i < |s| => LowerChar(s[i]))
  }

  predicate StartsWith(s: string, prefix: string)
  {
    |prefix| <= |s| && s[..|prefix|] == prefix
  }

  /** Substring test, the `sub in s` of the source: `sub` starts at some position of `s`. */
  predicate Contains(s: string, sub: string)
    decreases |s|
  {
    StartsWith(s, sub) || (|s| > 0 && Contains(s[1..], sub))
  }

  /** `sub` occurs in `s` starting at index `i`. */
  predicate OccursAt(s: string, sub: string, i: int)
  {
    0 <= i && i + |sub| <= |s| && s[i..i + |sub|] == sub
  }

  /** An occurrence at index `i` is found by the recursive search. */
  lemma {:induction false} OccursAtContains(s: string, sub: string, i: int)
    requires OccursAt(s, sub, i)
    ensures Contains(s, sub)
    decreases i
  {
    if i == 0 {
      assert s[..|sub|] == s[0..0 + |sub|];
    } else {
      assert s[1..][i - 1..i - 1 + |sub|] == s[i..i + |sub|];
      OccursAtContains(s[1..], sub, i - 1);
    }
  }

  /** A match of the recursive search is an occurrence at some index. */
  lemma {:induction false} ContainsOccurs(s: string, sub: string) returns (i: int)
    requires Contains(s, sub)
    ensures OccursAt(s, sub, i)
    decreases |s|
  {
    if StartsWith(s, sub) {
      i := 0;
      assert s[0..0 + |sub|] == s[..|sub|];
    } else {
      var j := ContainsOccurs(s[1..], sub);
      assert s[1..][j..j + |sub|] == s[j + 1..j + 1 + |sub|];
      i := j + 1;
    }
  }

  /** The recursive search agrees with the positional definition, in both directions. */
  lemma ContainsIffOccurs(s: string, sub: string)
    ensures Contains(s, sub) <==> exists i :: OccursAt(s, sub, i)
  {
    if Contains(s, sub) {
      var i := ContainsOccurs(s, sub);
    }
    forall i | OccursAt(s, sub, i) ensures Contains(s, sub) {
      OccursAtContains(s, sub, i);
    }
  }

  /** A match is no longer than the text, equals it when as long, and starts with a
      character of the text. */
  lemma {:induction false} ContainsBounds(s: string, sub: string)
    requires Contains(s, sub)
    ensures |sub| <= |s|
    ensures |sub| == |s| ==> s == sub
    ensures |sub| > 0 ==> sub[0] in s
  {
    var i := ContainsOccurs(s, sub);
    if |sub| > 0 {
      assert s[i] == sub[0];
    }
    if |sub| == |s| {
      assert s[0..|s|] == s;
    }
  }
}
