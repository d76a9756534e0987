/** The lookup key under which a direct conversation is found: both user ids, in order, joined by colons. */
module LookupKey {
  import opened Events

  /** The order of strings that the key is sorted by. */
  predicate Greater(a: string, b: string) {
    a != [] && (b == [] || a[0] > b[0] || (a[0] == b[0] && Greater(a[1..], b[1..])))
  }

  function Join(a: string, b: string): string {
    "direct:" + a + ":" + b
  }

  function Key(a: Id, b: Id): string {
    if Greater(a, b) then Join(b, a) else Join(a, b)
  }

  predicate ColonFree(s: string) {
    ':' !in s
  }

  lemma {:induction false} GreaterTotal(a: string, b: string)
    ensures Greater(a, b) ==> !Greater(b, a)
    ensures !Greater(a, b) && !Greater(b, a) ==> a == b
    decreases |a|
  {
    if a != [] && b != [] && a[0] == b[0] {
      GreaterTotal(a[1..], b[1..]);
      assert a == [a[0]] + a[1..] && b == [b[0]] + b[1..];
    }
  }

  /** The strings agree up to `k`, where the first one is over or has the smaller character. */
  predicate SmallerAt(b: string, a: string, k: nat) {
    && k <= |b| && k < |a| && b[..k] == a[..k]
    && (k == |b| || b[k] < a[k])
  }

  /** The order is that of the first difference, and a proper beginning comes first. */
  lemma {:induction false} GreaterIs(a: string, b: string)
    ensures Greater(a, b) <==> exists k: nat :: SmallerAt(b, a, k)
    decreases |a|
  {
    forall k: nat | 0 < k && SmallerAt(b, a, k) ensures b[0] == a[0] {
      assert b[..k][0] == b[0] && a[..k][0] == a[0];
    }
    if a != [] && b != [] && a[0] == b[0] {
      GreaterIs(a[1..], b[1..]);
      if Greater(a, b) {
        var k: nat :| SmallerAt(b[1..], a[1..], k);
        assert b[..k + 1] == [b[0]] + b[1..][..k] && a[..k + 1] == [a[0]] + a[1..][..k];
        assert SmallerAt(b, a, k + 1);
      }
      if k: nat :| SmallerAt(b, a, k) {
        assert k > 0 && b[1..][..k - 1] == b[..k][1..] && a[1..][..k - 1] == a[..k][1..];
        assert SmallerAt(b[1..], a[1..], k - 1);
      }
    } else if Greater(a, b) {
      assert SmallerAt(b, a, 0);
    }
  }

  /** The key names the pair with the smaller id first. */
  lemma KeyIs(a: Id, b: Id)
    ensures exists x: Id, y: Id :: Key(a, b) == "direct:" + x + ":" + y && !Greater(x, y)
                                && ((x == a && y == b) || (x == b && y == a))
  {
    GreaterTotal(a, b);
    if Greater(a, b) {
      assert Key(a, b) == "direct:" + b + ":" + a;
    } else {
      assert Key(a, b) == "direct:" + a + ":" + b;
    }
  }

  /** `c:d` reads the joined string of `a` and `b` at a later colon. */
  ghost predicate SplitsLater(a: string, b: string, c: string, d: string) {
    exists x: string :: c == a + ":" + x && b == x + ":" + d
  }

  lemma JoinTail(a: string, b: string)
    ensures Join(a, b)[7..] == a + ":" + b
  {
  }

  /** Two joined strings are equal exactly when the pairs are equal or one splits the other's string later. */
  lemma JoinCollidesIff(a: string, b: string, c: string, d: string)
    ensures Join(a, b) == Join(c, d) <==> (a == c && b == d) || SplitsLater(a, b, c, d) || SplitsLater(c, d, a, b)
  {
    JoinTail(a, b);
    JoinTail(c, d);
    var s, t := a + ":" + b, c + ":" + d;
    if Join(a, b) == Join(c, d) {
      assert s == t;
      if |a| == |c| {
        assert a == s[..|a|] && c == t[..|c|];
        assert b == s[|a| + 1..] && d == t[|c| + 1..];
      } else if |a| < |c| {
        SplitLater(a, b, c, d);
      } else {
        SplitLater(c, d, a, b);
      }
    }
    if SplitsLater(a, b, c, d) {
      var x :| c == a + ":" + x && b == x + ":" + d;
      assert s == a + ":" + x + ":" + d == t;
      assert Join(a, b) == "direct:" + s && Join(c, d) == "direct:" + t;
    }
    if SplitsLater(c, d, a, b) {
      var x :| a == c + ":" + x && d == x + ":" + b;
      assert t == c + ":" + x + ":" + b == s;
      assert Join(a, b) == "direct:" + s && Join(c, d) == "direct:" + t;
    }
  }

  lemma SplitLater(a: string, b: string, c: string, d: string)
    requires a + ":" + b == c + ":" + d && |a| < |c|
    ensures SplitsLater(a, b, c, d)
  {
    var s := a + ":" + b;
    var x := c[|a| + 1..];
    assert c == s[..|c|] && a == s[..|a|] && s[|a|] == ':';
    assert c[..|a|] == a && c[|a|] == ':';
    assert c == c[..|a|] + [c[|a|]] + x;
    assert b == s[|a| + 1..];
    assert s[|c|] == ':' && d == s[|c| + 1..];
    assert x == b[..|x|] && b == b[..|x|] + [b[|x|]] + b[|x| + 1..];
    assert c == a + ":" + x && b == x + ":" + d;
  }

  /** For user ids without a colon, keys are equal exactly when the unordered pairs are. */
  lemma KeyIdentifiesPair(a: Id, b: Id, c: Id, d: Id)
    requires ColonFree(a) && ColonFree(b) && ColonFree(c) && ColonFree(d)
    ensures Key(a, b) == Key(c, d) <==> (a == c && b == d) || (a == d && b == c)
  {
    KeySymmetric(a, b);
    GreaterTotal(c, d);
    NoSplit(a, b, c, d);
    NoSplit(a, b, d, c);
    NoSplit(b, a, c, d);
    NoSplit(b, a, d, c);
  }

  lemma NoSplit(a: Id, b: Id, c: Id, d: Id)
    requires ColonFree(a) && ColonFree(b) && ColonFree(c) && ColonFree(d)
    ensures Join(a, b) == Join(c, d) <==> a == c && b == d
  {
    JoinCollidesIff(a, b, c, d);
    forall x: string ensures c != a + ":" + x && a != c + ":" + x {
      assert (a + ":" + x)[|a|] == ':' && (c + ":" + x)[|c|] == ':';
    }
  }

  lemma KeySymmetric(a: Id, b: Id)
    ensures Key(a, b) == Key(b, a)
  {
    GreaterTotal(a, b);
  }

  /** With colons in user ids two different pairs may share a key. */
  lemma KeysMayCollide() returns (a: Id, b: Id, c: Id, d: Id)
    ensures Key(a, b) == Key(c, d) && {a, b} != {c, d}
  {
    a, b, c, d := "a:b", "c", "a", "b:c";
    assert "a" + ":" + "b:c" == "a:b" + ":" + "c";
    assert !Greater("a:b", "c") && !Greater("a", "b:c");
    JoinTail(a, b);
    JoinTail(c, d);
    assert Join(a, b) == "direct:" + "a:b:c" && Join(c, d) == "direct:" + "a:b:c";
    assert "c" !in {"a", "b:c"};
  }
}
