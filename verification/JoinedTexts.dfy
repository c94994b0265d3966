// Keys made of two texts and a separator, as several components build them.

module JoinedTexts {
  import opened Options

  // The first name that is present.
  function FirstOf(names: seq<Option<string>>): string {
    if names == [] then "" else if names[0].Some? then names[0].value else FirstOf(names[1..])
  }

  lemma FirstOfTwo(x: Option<string>, y: string)
    ensures FirstOf([x, Some(y)]) == match x case Some(t) => t case None => y
  {
    assert [x, Some(y)][1..] == [Some(y)];
  }

  lemma FirstOfThree(x: Option<string>, y: Option<string>, z: string)
    ensures FirstOf([x, y, Some(z)]) == match x case Some(t) => t case None => FirstOf([y, Some(z)])
  {
    assert [x, y, Some(z)][1..] == [y, Some(z)];
  }

  function Joined(a: string, sep: char, b: string): string { a + [sep] + b }

  // The second text begins with the first one and the separator.
  predicate Spills(a: string, sep: char, b: string) { a + [sep] <= b }

  // When two pairs read the same once joined: they are the same pair, or one first text spills into
  // the other and the second text makes up for it.
  predicate ReadAlike(a: string, b: string, c: string, d: string, sep: char) {
    || (a == c && b == d)
    || (Spills(a, sep, c) && b == Joined(c[|a| + 1..], sep, d))
    || (Spills(c, sep, a) && d == Joined(a[|c| + 1..], sep, b))
  }

  lemma SpillsInto(a: string, sep: char, b: string, c: string, d: string)
    requires Joined(a, sep, b) == Joined(c, sep, d) && |a| < |c|
    ensures Spills(a, sep, c) && b == Joined(c[|a| + 1..], sep, d)
  {
    var k := Joined(a, sep, b);
    assert c == k[..|c|];
    assert a + [sep] == k[..|a| + 1] == c[..|a| + 1];
    assert b == k[|a| + 1..];
    assert k[|a| + 1..] == c[|a| + 1..] + [sep] + d;
  }

  lemma {:induction false} SameKeyExactly(a: string, b: string, c: string, d: string, sep: char)
    ensures Joined(a, sep, b) == Joined(c, sep, d) <==> ReadAlike(a, b, c, d, sep)
  {
    if Joined(a, sep, b) == Joined(c, sep, d) {
      if |a| < |c| {
        SpillsInto(a, sep, b, c, d);
      } else if |c| < |a| {
        SpillsInto(c, sep, d, a, b);
      } else {
        assert a == Joined(a, sep, b)[..|a|] && c == Joined(c, sep, d)[..|c|];
        assert b == Joined(a, sep, b)[|a| + 1..] && d == Joined(c, sep, d)[|c| + 1..];
      }
    }
    if Spills(a, sep, c) { assert c == a + [sep] + c[|a| + 1..]; }
    if Spills(c, sep, a) { assert a == c + [sep] + a[|c| + 1..]; }
  }

  // Two different first texts can make the same key at all exactly when one spills into the other.
  lemma {:induction false} FirstTextsCollideExactly(a: string, c: string, sep: char)
    requires a != c
    ensures (exists b, d :: Joined(a, sep, b) == Joined(c, sep, d)) <==> Spills(a, sep, c) || Spills(c, sep, a)
  {
    if b, d :| Joined(a, sep, b) == Joined(c, sep, d) { SameKeyExactly(a, b, c, d, sep); }
    if Spills(a, sep, c) {
      SameKeyExactly(a, Joined(c[|a| + 1..], sep, ""), c, "", sep);
      assert Joined(a, sep, Joined(c[|a| + 1..], sep, "")) == Joined(c, sep, "");
    }
    if Spills(c, sep, a) {
      SameKeyExactly(a, "", c, Joined(a[|c| + 1..], sep, ""), sep);
      assert Joined(a, sep, "") == Joined(c, sep, Joined(a[|c| + 1..], sep, ""));
    }
  }
}
