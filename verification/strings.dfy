/** String helpers with the semantics of the `java.lang.String` methods the generator calls,
    restricted to ASCII case mapping. */
module Strings {

  predicate IsUpper(c: char) {
    'A' <= c <= 'Z'
  }

  predicate IsLower(c: char) {
    'a' <= c <= 'z'
  }

  /** `Character.toLowerCase` on ASCII letters. */
  function ToLower(c: char): char {
    if IsUpper(c) then (c as int + 32) as char else c
  }

  /** `Character.toUpperCase` on ASCII letters. */
  function ToUpper(c: char): char {
    if IsLower(c) then (c as int - 32) as char else c
  }

  /** `String.toLowerCase` on ASCII text. */
  function LowerCase(s: string): (r: string)
    ensures |r| == |s|
    ensures forall i | 0 <= i < |s| :: r[i] == ToLower(s[i])
  {
    seq(|s|, i requires 0 <= i < |s| => ToLower(s[i]))
  }

  /** `String.replace(from, to)` for single-character arguments: every occurrence is replaced. */
  function Replace(s: string, from: char, to: char): (r: string)
    ensures |r| == |s|
    ensures forall i | 0 <= i < |s| :: r[i] == (if s[i] == from then to else s[i])
  {
    seq(|s|, i requires 0 <= i < |s| => if s[i] == from then to else s[i])
  }

  /** `a.equalsIgnoreCase(b)` on ASCII text. */
  predicate EqualsIgnoreCase(a: string, b: string) {
    |a| == |b| && forall i | 0 <= i < |a| :: ToUpper(a[i]) == ToUpper(b[i])
  }

  /** `t` occurs in `s` starting at index `i`. */
  predicate OccursAt(s: string, t: string, i: int) {
    0 <= i && i + |t| <= |s| && s[i..i + |t|] == t
  }

  /** The last occurrence of `t` in `s` at an index not above `k`, or -1. */
  function LastIndexAtOrBefore(s: string, t: string, k: int): (r: int)
    requires -1 <= k <= |s| - |t|
    ensures -1 <= r <= k
    ensures r == -1 ==> forall i | 0 <= i <= k :: !OccursAt(s, t, i)
    ensures r != -1 ==> OccursAt(s, t, r) && forall j | r < j <= k :: !OccursAt(s, t, j)
    decreases k + 1
  {
    if k == -1 then -1
    else if s[k..k + |t|] == t then k
    else LastIndexAtOrBefore(s, t, k - 1)
  }

  /** `s.lastIndexOf(t)`: the largest index at which `t` occurs in `s`, or -1 when it does not
      occur at all (an empty `t` occurs at `|s|`). */
  function LastIndexOf(s: string, t: string): (r: int)
    ensures r == -1 <==> forall i :: !OccursAt(s, t, i)
    ensures r != -1 ==> OccursAt(s, t, r) && forall j | r < j :: !OccursAt(s, t, j)
  {
    if |t| > |s| then -1 else LastIndexAtOrBefore(s, t, |s| - |t|)
  }

  /** One mismatching character rules out an occurrence. */
  lemma MismatchAt(s: string, t: string, i: int, k: int)
    requires 0 <= i && i + |t| <= |s| && 0 <= k < |t| && s[i + k] != t[k]
    ensures !OccursAt(s, t, i)
  {
    assert s[i..i + |t|][k] == s[i + k];
  }

  /** `t` occurs in `a + t + b` right after `a`. */
  lemma OccursBetween(a: string, t: string, b: string)
    ensures OccursAt(a + t + b, t, |a|)
  {
    assert (a + t + b)[|a|..|a| + |t|] == t;
  }

  /** The number of occurrences of `ch` in `s`. */
  function Count(s: string, ch: char): nat {
    if s == [] then 0 else (if s[0] == ch then 1 else 0) + Count(s[1..], ch)
  }

  lemma {:induction false} CountAbsent(s: string, ch: char)
    requires ch !in s
    ensures Count(s, ch) == 0
  {
    if s != [] {
      assert forall x | x in s[1..] :: x in s;
      CountAbsent(s[1..], ch);
    }
  }

  lemma {:induction false} CountAppend(a: string, b: string, ch: char)
    ensures Count(a + b, ch) == Count(a, ch) + Count(b, ch)
  {
    if a == [] {
      assert a + b == b;
    } else {
      assert (a + b)[1..] == a[1..] + b;
      CountAppend(a[1..], b, ch);
    }
  }

  /** As many opening as closing parentheses. */
  predicate ParensBalanced(s: string) {
    Count(s, '(') == Count(s, ')')
  }

  /** Text without parentheses is balanced, and balanced texts concatenate to a balanced text. */
  lemma NoParensBalanced(s: string)
    requires '(' !in s && ')' !in s
    ensures ParensBalanced(s)
  {
    CountAbsent(s, '(');
    CountAbsent(s, ')');
  }

  lemma AppendBalanced(a: string, b: string)
    requires ParensBalanced(a) && ParensBalanced(b)
    ensures ParensBalanced(a + b)
  {
    CountAppend(a, b, '(');
    CountAppend(a, b, ')');
  }

  /** Wrapping a balanced text in a pair of parentheses after a parenthesis-free prefix keeps it
      balanced. */
  lemma WrapBalanced(a: string, b: string)
    requires '(' !in a && ')' !in a && ParensBalanced(b)
    ensures ParensBalanced(a + "(" + b + ")")
  {
    assert Count("(", '(') == 1 && Count("(", ')') == 0;
    assert Count(")", '(') == 0 && Count(")", ')') == 1;
    NoParensBalanced(a);
    CountAppend(a, "(", '(');
    CountAppend(a, "(", ')');
    CountAppend(a + "(", b, '(');
    CountAppend(a + "(", b, ')');
    CountAppend(a + "(" + b, ")", '(');
    CountAppend(a + "(" + b, ")", ')');
  }

  /** An opening parenthesis left unclosed after a balanced text unbalances it by one. */
  lemma OpenUnclosed(a: string, b: string)
    requires '(' !in a && ')' !in a && ParensBalanced(b)
    ensures Count(a + "(" + b, '(') == Count(a + "(" + b, ')') + 1
  {
    assert Count("(", '(') == 1 && Count("(", ')') == 0;
    NoParensBalanced(a);
    CountAppend(a, "(", '(');
    CountAppend(a, "(", ')');
    CountAppend(a + "(", b, '(');
    CountAppend(a + "(", b, ')');
  }
}
