/** The two string operations the test-case heuristic relies on: lowering
    case and substring search. */
module Strings {

  /** Lower case of one character, for ASCII letters and the basic Cyrillic
      alphabet (including Ё); every other character is left as it is. */
  function LowerChar(c: char): (d: char)
    ensures 'A' <= c <= 'Z' ==> 'a' <= d <= 'z'
    ensures ('A' <= c <= 'Z' || 'А' <= c <= 'Я') ==> d as int == c as int + 32
    ensures c == 'Ё' ==> d == 'ё'
    ensures !('A' <= c <= 'Z') && !('А' <= c <= 'Я') && c != 'Ё' ==> d == c
  {
    if 'A' <= c <= 'Z' then (c as int + 32) as char
    else if 'А' <= c <= 'Я' then (c as int + 32) as char
    else if c == 'Ё' then 'ё'
    else c
  }

  function ToLower(s: string): (r: string)
    ensures |r| == |s|
    ensures forall i :: 0 <= i < |s| ==> r[i] == LowerChar(s[i])
  {
    seq(|s|, i requires 0 <= i < |s| => LowerChar(s[i]))
  }

  lemma LowerCharIdempotent(c: char)
    ensures LowerChar(LowerChar(c)) == LowerChar(c)
  {
  }

  /** Lowering twice is lowering once. */
  lemma ToLowerIdempotent(s: string)
    ensures ToLower(ToLower(s)) == ToLower(s)
  {
    forall i | 0 <= i < |s|
      ensures ToLower(ToLower(s))[i] == ToLower(s)[i]
    {
      LowerCharIdempotent(s[i]);
    }
  }

  /** Whether `sub` occurs in `s` starting at position `i`. */
  ghost predicate OccursAt(s: string, sub: string, i: int)
  {
    0 <= i && i + |sub| <= |s| && s[i..i + |sub|] == sub
  }

  /** Substring search: true iff `sub` occurs somewhere in `s`. */
  function Contains(s: string, sub: string): (r: bool)
    ensures r <==> exists i :: OccursAt(s, sub, i)
    decreases |s|
  {
    if |sub| > |s| then
      false
    else if s[..|sub|] == sub then
      assert OccursAt(s, sub, 0);
      true
    else
      var rest := Contains(s[1..], sub);
      assert forall i :: OccursAt(s[1..], sub, i) <==> OccursAt(s, sub, i + 1) by {
        forall i ensures OccursAt(s[1..], sub, i) <==> OccursAt(s, sub, i + 1) {
          if 0 <= i && i + |sub| <= |s| - 1 {
            assert s[1..][i..i + |sub|] == s[i + 1..i + 1 + |sub|];
          }
        }
      }
      assert forall i :: OccursAt(s, sub, i) ==> i == 0 || OccursAt(s[1..], sub, i - 1);
      rest
  }

  /** A non-empty string whose first character does not occur in `s` does
      not occur in `s`. */
  lemma FirstCharAbsent(s: string, sub: string)
    requires sub != [] && sub[0] !in s
    ensures !Contains(s, sub)
  {
  }

  /** Nothing but the empty string occurs in the empty string. */
  lemma NotContainedInEmpty(sub: string)
    requires sub != []
    ensures !Contains([], sub)
  {
  }
}
