/** Strings taken apart at a separator. */
module Strings {

  /** The first separator splits a joined string in one way only. */
  lemma {:induction false} SplitAtFirst(c: char, a: string, x: string, b: string, y: string)
    requires c !in a && c !in b && a + [c] + x == b + [c] + y
    ensures a == b && x == y
  {
    var p, q := a + [c] + x, b + [c] + y;
    if a == [] || b == [] {
      assert p[0] == q[0];
      assert a == [] ==> p[0] == c;
      assert b == [] ==> q[0] == c;
      assert a == b == [];
      assert p[1..] == x && q[1..] == y;
    } else {
      assert p[0] == a[0] && q[0] == b[0];
      assert p[1..] == a[1..] + [c] + x && q[1..] == b[1..] + [c] + y;
      SplitAtFirst(c, a[1..], x, b[1..], y);
      assert a == [a[0]] + a[1..] && b == [b[0]] + b[1..];
    }
  }
}
