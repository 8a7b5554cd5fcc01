/** An application's salary range and the `JSON.stringify` text the change detector compares. */
module Json {
  import opened Common

  /** `{min, max}`; either bound may be null. */
  datatype SalaryRange = SalaryRange(min: Option<int>, max: Option<int>)

  /** The range stored when an application is created without one. */
  const NO_SALARY := SalaryRange(None, None)

  predicate IsDigit(c: char)
  {
    '0' <= c <= '9'
  }

  function Digit(d: nat): (c: char)
    requires d < 10
    ensures IsDigit(c)
  {
    ('0' as int + d) as char
  }

  /** Decimal digits of a natural number, as JSON prints an integer. */
  function NatText(n: nat): (r: string)
    ensures |r| >= 1 && (n < 10 <==> |r| == 1)
    ensures forall k :: 0 <= k < |r| ==> IsDigit(r[k])
  {
    if n < 10 then [Digit(n)] else NatText(n / 10) + [Digit(n % 10)]
  }

  /** A nullable integer in JSON. */
  function NumberText(o: Option<int>): (r: string)
    ensures r != [] && ',' !in r
  {
    match o
    case None => "null"
    case Some(v) => if v < 0 then "-" + NatText(-v) else NatText(v)
  }

  /** `JSON.stringify(range)` for a range built with its keys in the order min, max. */
  function Stringify(r: SalaryRange): string
  {
    RangeText(NumberText(r.min), NumberText(r.max))
  }

  /** The JSON object text `{"min":a,"max":b}` around two already printed values. */
  function RangeText(a: string, b: string): string
  {
    "{\"min\":" + a + ",\"max\":" + b + "}"
  }

  lemma {:induction false} NatTextInjective(a: nat, b: nat)
    requires NatText(a) == NatText(b)
    ensures a == b
  {
    var ta, tb := NatText(a), NatText(b);
    if a >= 10 {
      assert b >= 10;
      var pa, pb := NatText(a / 10), NatText(b / 10);
      assert ta == pa + [Digit(a % 10)] && tb == pb + [Digit(b % 10)];
      assert ta[..|ta| - 1] == pa && tb[..|tb| - 1] == pb;
      NatTextInjective(a / 10, b / 10);
      assert ta[|ta| - 1] == Digit(a % 10) && tb[|tb| - 1] == Digit(b % 10);
    } else {
      assert ta[0] == Digit(a) && tb[0] == Digit(b);
    }
  }

  lemma NumberTextStart(x: Option<int>)
    ensures NumberText(x)[0] == 'n' <==> x.None?
    ensures NumberText(x)[0] == '-' <==> x.Some? && x.value < 0
  {
    if x.Some? && x.value >= 0 {
      assert IsDigit(NatText(x.value)[0]);
    }
  }

  lemma NumberTextInjective(x: Option<int>, y: Option<int>)
    requires NumberText(x) == NumberText(y)
    ensures x == y
  {
    NumberTextStart(x);
    NumberTextStart(y);
    if x.Some? && y.Some? {
      var v, w := x.value, y.value;
      if v < 0 {
        assert NumberText(x)[1..] == NatText(-v) && NumberText(y)[1..] == NatText(-w);
        NatTextInjective(-v, -w);
      } else {
        NatTextInjective(v, w);
      }
    }
  }

  /** Where `sep` begins after `a`, a longer string `c` has one of its own characters. */
  lemma SeparatorAt(a: string, sep: string, b: string, c: string)
    ensures sep != [] && |a| < |c| ==> (a + sep + b)[|a|] == sep[0] && c[|a|] in c
  {
  }

  /** A comma-free prefix followed by a separator starting with a comma is found again unambiguously. */
  lemma {:induction false} SplitAtSeparator(a: string, b: string, c: string, d: string, sep: string)
    requires ',' !in a && ',' !in c && sep != [] && sep[0] == ','
    requires a + sep + b == c + sep + d
    ensures a == c && b == d
  {
    var lhs, rhs := a + sep + b, c + sep + d;
    if |a| < |c| {
      SeparatorAt(a, sep, b, c);
      assert false;
    } else if |c| < |a| {
      SeparatorAt(c, sep, d, a);
      assert false;
    }
    assert a == lhs[..|a|] && c == rhs[..|c|];
    assert b == lhs[|a| + |sep|..] && d == rhs[|c| + |sep|..];
  }

  lemma {:induction false} RangeTextInjective(a: string, b: string, c: string, d: string)
    requires ',' !in a && ',' !in c
    requires RangeText(a, b) == RangeText(c, d)
    ensures a == c && b == d
  {
    var head, sep := "{\"min\":", ",\"max\":";
    var x, y := a + sep + (b + "}"), c + sep + (d + "}");
    assert RangeText(a, b) == head + x;
    assert RangeText(c, d) == head + y;
    assert x == RangeText(a, b)[|head|..] && y == RangeText(c, d)[|head|..];
    SplitAtSeparator(a, b + "}", c, d + "}", sep);
    assert b == (b + "}")[..|b|] && d == (d + "}")[..|d|];
  }

  /** Two ranges serialize alike exactly when they are equal: comparing the JSON text is deep equality. */
  lemma StringifyInjective(r: SalaryRange, s: SalaryRange)
    ensures Stringify(r) == Stringify(s) <==> r == s
  {
    if Stringify(r) == Stringify(s) {
      RangeTextInjective(NumberText(r.min), NumberText(r.max), NumberText(s.min), NumberText(s.max));
      NumberTextInjective(r.min, s.min);
      NumberTextInjective(r.max, s.max);
    }
  }
}
