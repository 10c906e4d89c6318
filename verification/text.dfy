/** String primitives of JavaScript that the request rules rely on:
    `String.prototype.includes` and `String.prototype.replace` with a
    one-character string pattern. Strings are sequences of characters. */
module Text {

  /** `sub` occurs in `s` starting at index `i`. */
  ghost predicate OccursAt(s: string, sub: string, i: int) {
    0 <= i && i + |sub| <= |s| && s[i..i + |sub|] == sub
  }

  lemma OccursAtShift(s: string, sub: string, i: int)
    requires 1 <= |s| && 0 <= i
    ensures OccursAt(s, sub, i + 1) <==> OccursAt(s[1..], sub, i)
  {
    if 0 <= i && i + 1 + |sub| <= |s| {
      assert s[1..][i..i + |sub|] == s[i + 1..i + 1 + |sub|];
    }
  }

  /** `sub` occurs somewhere in `s`. */
  ghost predicate Contains(s: string, sub: string) {
    exists i :: OccursAt(s, sub, i)
  }

  /** `s.includes(sub)`: a left-to-right scan of the start positions. */
  function Includes(s: string, sub: string): (r: bool)
    ensures r <==> Contains(s, sub)
    decreases |s|
  {
    if |s| < |sub| then
      false
    else if s[..|sub|] == sub then
      assert OccursAt(s, sub, 0);
      true
    else
      var rest := Includes(s[1..], sub);
      assert !OccursAt(s, sub, 0);
      assert forall i | 0 <= i :: OccursAt(s, sub, i + 1) <==> OccursAt(s[1..], sub, i) by {
        forall i | 0 <= i ensures OccursAt(s, sub, i + 1) <==> OccursAt(s[1..], sub, i) {
          OccursAtShift(s, sub, i);
        }
      }
      assert (exists i :: OccursAt(s, sub, i)) ==> exists j :: OccursAt(s[1..], sub, j) by {
        if exists i :: OccursAt(s, sub, i) {
          var i :| OccursAt(s, sub, i);
          assert OccursAt(s[1..], sub, i - 1);
        }
      }
      rest
  }

  /** `s.replace(c, '')` with a one-character string pattern: only the
      first occurrence of `c` is removed. */
  function RemoveFirst(s: string, c: char): (r: string)
    ensures c !in s ==> r == s
    ensures c in s ==> |r| == |s| - 1
    ensures |s| > 0 && s[0] == c ==> r == s[1..]
    ensures forall i | 0 <= i < |s| && s[i] == c && c !in s[..i] :: r == s[..i] + s[i + 1..]
  {
    if |s| == 0 then s
    else if s[0] == c then s[1..]
    else
      assert c in s <==> c in s[1..] by { assert s == [s[0]] + s[1..]; }
      var rest := RemoveFirst(s[1..], c);
      RemoveFirstSplits(s, c, rest);
      [s[0]] + rest
  }

  /** The step of `RemoveFirst` past a leading non-`c`: if the tail's
      first `c` is removed in `rest`, prefixing the head removes the first
      `c` of the whole string. */
  lemma RemoveFirstSplits(s: string, c: char, rest: string)
    requires |s| > 0 && s[0] != c
    requires forall j | 0 <= j < |s| - 1 && s[1..][j] == c && c !in s[1..][..j] :: rest == s[1..][..j] + s[1..][j + 1..]
    ensures forall i | 0 <= i < |s| && s[i] == c && c !in s[..i] :: [s[0]] + rest == s[..i] + s[i + 1..]
  {
    forall i | 0 <= i < |s| && s[i] == c && c !in s[..i]
      ensures [s[0]] + rest == s[..i] + s[i + 1..]
    {
      var t := s[1..];
      assert t[i - 1] == c;
      assert t[..i - 1] == s[1..i];
      assert s[..i] == [s[0]] + t[..i - 1];
      assert c !in t[..i - 1];
      assert t[i..] == s[i + 1..];
    }
  }
}
