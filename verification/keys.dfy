/** Keys that are built by joining fields with colons. */
module Keys {
  function UpToColon(s: string): string {
    if s == [] || s[0] == ':' then [] else [s[0]] + UpToColon(s[1..])
  }

  lemma {:induction false} UpToColonOf(a: string, x: string)
    requires ':' !in a && x != [] && x[0] == ':'
    ensures UpToColon(a + x) == a
  {
    if a == [] {
      assert a + x == x;
    } else {
      assert (a + x)[1..] == a[1..] + x;
      UpToColonOf(a[1..], x);
    }
  }

  /** A colon-free field can be read back from the front of a key, and so can the rest. */
  lemma FrontField(a: string, x: string, a': string, x': string)
    requires ':' !in a && ':' !in a' && x != [] && x[0] == ':' && x' != [] && x'[0] == ':'
    ensures a + x == a' + x' <==> a == a' && x == x'
  {
    if a + x == a' + x' {
      UpToColonOf(a, x);
      UpToColonOf(a', x');
      assert x == (a + x)[|a|..] && x' == (a' + x')[|a'|..];
    }
  }
}
