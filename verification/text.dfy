/** The two string operations of the organization search box:
    `toLowerCase` and `includes`. */
module Text {

  /** Lower-cases an ASCII capital and leaves every other character alone. */
  function LowerChar(c: char): (d: char)
    ensures !('A' <= d <= 'Z')
    ensures !('A' <= c <= 'Z') ==> d == c
  {
    if 'A' <= c <= 'Z' then (c as int - 'A' as int + 'a' as int) as char else c
  }

  /** `toLowerCase`, character by character. */
  function ToLower(s: string): (r: string)
    ensures |r| == |s|
    ensures forall i :: 0 <= i < |s| ==> r[i] == LowerChar(s[i])
  {
    seq(|s|, i requires 0 <= i < |s| => LowerChar(s[i]))
  }

  /** Lower-casing twice is lower-casing once. */
  lemma ToLowerIdempotent(s: string)
    ensures ToLower(ToLower(s)) == ToLower(s)
  {
  }

  /** `t` is a prefix of `s`. */
  predicate IsPrefix(t: string, s: string)
  {
    |t| <= |s| && s[..|t|] == t
  }

  /** `t` occurs in `s` at some position: the meaning of `s.includes(t)`. */
  ghost predicate Occurs(t: string, s: string)
  {
    exists i :: 0 <= i <= |s| && IsPrefix(t, s[i..])
  }

  /** `s.includes(t)`, scanning the start positions of `s` left to right. */
  function Includes(s: string, t: string): (b: bool)
    ensures b <==> Occurs(t, s)
    decreases |s|
  {
    if IsPrefix(t, s) then
      assert IsPrefix(t, s[0..]);
      true
    else if |s| == 0 then
      false
    else
      var b := Includes(s[1..], t);
      assert Occurs(t, s[1..]) ==> Occurs(t, s) by {
        if Occurs(t, s[1..]) {
          var i :| 0 <= i <= |s[1..]| && IsPrefix(t, s[1..][i..]);
          assert s[1..][i..] == s[i + 1..];
        }
      }
      assert Occurs(t, s) ==> Occurs(t, s[1..]) by {
        if Occurs(t, s) {
          var i :| 0 <= i <= |s| && IsPrefix(t, s[i..]);
          assert i != 0;
          assert s[1..][i - 1..] == s[i..];
        }
      }
      b
  }

  /** Every string includes the empty string. */
  lemma IncludesEmpty(s: string)
    ensures Includes(s, "")
  {
    assert IsPrefix("", s[0..]);
  }
}
