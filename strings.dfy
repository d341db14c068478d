/** Substring occurrence, for stating what generated markup contains. */
module Strings {

  /** `t` stands in `s` from index `i` on. */
  predicate OccursAt(t: string, s: string, i: int) {
    0 <= i <= |s| - |t| && s[i..i + |t|] == t
  }

  /** `t` occurs somewhere inside `s`. */
  ghost predicate Occurs(t: string, s: string) {
    exists i :: OccursAt(t, s, i)
  }

  /** What occurs in `s` still occurs once text is put before or after it. */
  lemma OccursInContext(t: string, pre: string, s: string, post: string)
    requires Occurs(t, s)
    ensures Occurs(t, pre + s + post)
  {
    var i :| OccursAt(t, s, i);
    var whole := pre + s + post;
    assert whole[|pre| + i..|pre| + i + |t|] == s[i..i + |t|];
    assert OccursAt(t, whole, |pre| + i);
  }

  /** Text occurs in itself. */
  lemma OccursSelf(t: string)
    ensures Occurs(t, t)
  {
    assert OccursAt(t, t, 0);
  }
}
