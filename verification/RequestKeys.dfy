/** The text key under which one requested range of a file is indexed. */
module RequestKeys {

  function Digits(n: nat): string {
    if n < 10 then ["0123456789"[n]] else Digits(n / 10) + ["0123456789"[n % 10]]
  }

  function Decimal(n: int): string {
    if n < 0 then "-" + Digits(-n) else Digits(n)
  }

  function RequestKey(path: string, start: int, end: int): string {
    path + "#" + Decimal(start) + "#" + Decimal(end)
  }

  function DigitValue(c: char): int {
    c as int - '0' as int
  }

  function ValueOf(s: string): int
    decreases |s|
  {
    if s == "" then 0 else 10 * ValueOf(s[..|s| - 1]) + DigitValue(s[|s| - 1])
  }

  lemma {:induction false} DigitsProperty(n: nat)
    ensures ValueOf(Digits(n)) == n
    ensures Digits(n) != "" && forall i :: 0 <= i < |Digits(n)| ==> '0' <= Digits(n)[i] <= '9'
  {
    if n < 10 {
      assert Digits(n)[..0] == "";
    } else {
      DigitsProperty(n / 10);
      assert Digits(n)[..|Digits(n)| - 1] == Digits(n / 10);
    }
  }

  lemma {:induction false} DecimalSign(n: int)
    ensures '#' !in Decimal(n) && Decimal(n) != ""
    ensures Decimal(n)[0] == '-' <==> n < 0
    ensures n < 0 ==> Decimal(n)[1..] == Digits(-n)
  {
    DigitsProperty(if n < 0 then -n else n);
  }

  lemma {:induction false} DecimalIsInjective(m: int, n: int)
    ensures Decimal(m) == Decimal(n) <==> m == n
  {
    DecimalSign(m);
    DecimalSign(n);
    DigitsProperty(if m < 0 then -m else m);
    DigitsProperty(if n < 0 then -n else n);
  }

  /** A '#' followed by none is the last one, and splits the text. */
  lemma {:induction false} LastHash(x: string, a: string)
    requires '#' !in a
    ensures var s := x + "#" + a;
            && s[|x|] == '#' && s[..|x|] == x && s[|x| + 1..] == a
            && forall k :: |x| < k < |s| ==> s[k] != '#'
  {
    var s := x + "#" + a;
    forall k | |x| < k < |s| ensures s[k] != '#' {
      assert s[k] == a[k - |x| - 1];
    }
  }

  lemma {:induction false} SplitAtLastHash(x: string, a: string, y: string, b: string)
    requires x + "#" + a == y + "#" + b && '#' !in a && '#' !in b
    ensures x == y && a == b
  {
    LastHash(x, a);
    LastHash(y, b);
  }

  /** Keys are equal exactly when path and both bounds are, whatever the paths contain. */
  lemma {:induction false} KeyIsInjective(p: string, s: int, e: int, p': string, s': int, e': int)
    ensures RequestKey(p, s, e) == RequestKey(p', s', e') <==> p == p' && s == s' && e == e'
  {
    DecimalSign(s);
    DecimalSign(s');
    DecimalSign(e);
    DecimalSign(e');
    if RequestKey(p, s, e) == RequestKey(p', s', e') {
      SplitAtLastHash(p + "#" + Decimal(s), Decimal(e), p' + "#" + Decimal(s'), Decimal(e'));
      SplitAtLastHash(p, Decimal(s), p', Decimal(s'));
      DecimalIsInjective(s, s');
      DecimalIsInjective(e, e');
    }
  }

  predicate StartsWith(s: string, prefix: string) {
    prefix <= s
  }

  /**
   Which keys clearing a path removes: its own, those of paths that continue it
   after a '#', and those of the path obtained by reading its own tail as a start.
   */
  lemma {:induction false} ClearedKeys(p: string, q: string, s: int, e: int)
    ensures StartsWith(RequestKey(q, s, e), p + "#")
            <==> p == q || StartsWith(q, p + "#") || p == q + "#" + Decimal(s)
  {
    var k := RequestKey(q, s, e);
    var head := q + "#" + Decimal(s);
    DecimalSign(s);
    DecimalSign(e);
    LastHash(head, Decimal(e));
    LastHash(q, Decimal(s));
    assert forall i :: |q| < i < |head| ==> k[i] == head[i] != '#';
    assert head + "#" <= k && q + "#" <= k && q <= k;
    if StartsWith(k, p + "#") {
      assert k[|p|] == '#' && k[..|p|] == p;
      assert |p| < |q| || |p| == |q| || |p| == |head|;
      if |p| == |head| {
        assert p == head;
      } else if |p| == |q| {
        assert p == q;
      } else {
        assert q[..|p| + 1] == k[..|p| + 1] == p + "#";
      }
    }
    if StartsWith(q, p + "#") {
      assert k[..|p| + 1] == q[..|p| + 1];
    }
  }

  lemma {:induction false} ContinuesAfterHash(q: string, p: string)
    ensures StartsWith(q, p + "#") ==> '#' in q
  {
    if StartsWith(q, p + "#") {
      assert q[|p|] == '#';
    }
  }
}
