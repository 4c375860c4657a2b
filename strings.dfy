/** Substring containment and concatenation of chunk lists, with the facts the template proofs need. */
module Strings {

  /** `t` occurs somewhere in `s` as a contiguous slice. */
  ghost predicate Infix(t: string, s: string) {
    exists k :: 0 <= k <= |s| && t <= s[k..]
  }

  /** A string occurs in any string built around it. */
  lemma InfixOf(a: string, t: string, b: string)
    ensures Infix(t, a + t + b)
  {
    var s := a + t + b;
    assert s[|a|..] == t + b;
  }

  /** Containment is transitive. */
  lemma InfixTrans(t: string, u: string, s: string)
    requires Infix(t, u) && Infix(u, s)
    ensures Infix(t, s)
  {
    var i :| 0 <= i <= |u| && t <= u[i..];
    var j :| 0 <= j <= |s| && u <= s[j..];
    assert i + |t| <= |u| && j + |u| <= |s|;
    assert u == s[j..j + |u|];
    assert t == u[i..i + |t|];
    assert u[i..i + |t|] == s[j + i..j + i + |t|];
    assert t <= s[j + i..];
  }

  /** The chunks of a list, joined in order with nothing between them. */
  function Concat(parts: seq<string>): string {
    if |parts| == 0 then "" else parts[0] + Concat(parts[1..])
  }

  /** Every chunk occurs in the joined string. */
  lemma {:induction false} ConcatInfix(parts: seq<string>, i: nat)
    requires i < |parts|
    ensures Infix(parts[i], Concat(parts))
  {
    if i == 0 {
      assert Concat(parts) == "" + parts[0] + Concat(parts[1..]);
      InfixOf("", parts[0], Concat(parts[1..]));
    } else {
      ConcatInfix(parts[1..], i - 1);
      assert Concat(parts) == parts[0] + Concat(parts[1..]) + "";
      InfixOf(parts[0], Concat(parts[1..]), "");
      InfixTrans(parts[i], Concat(parts[1..]), Concat(parts));
    }
  }

  /** Replacing one chunk changes the joined length by exactly the difference of the two chunks. */
  lemma {:induction false} ConcatUpdateLength(parts: seq<string>, i: nat, x: string)
    requires i < |parts|
    ensures |Concat(parts[i := x])| + |parts[i]| == |Concat(parts)| + |x|
  {
    if i == 0 {
      assert parts[i := x][1..] == parts[1..];
    } else {
      assert parts[i := x][1..] == parts[1..][i - 1 := x];
      ConcatUpdateLength(parts[1..], i - 1, x);
    }
  }

}
