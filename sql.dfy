/**
 * Parameterised SQL text as the storage layer assembles it: literal text and
 * positional placeholders `$k`, kept apart so that the placeholders can be
 * counted and numbered.
 */
module Sql {
  import Strconv

  datatype Token = Text(s: string) | Param(k: nat)

  /** The placeholder numbers of a query, left to right. */
  function Params(q: seq<Token>): (ks: seq<nat>)
    ensures |ks| <= |q|
  {
    if q == [] then [] else (if q[0].Param? then [q[0].k] else []) + Params(q[1..])
  }

  lemma {:induction false} ParamsConcat(a: seq<Token>, b: seq<Token>)
    ensures Params(a + b) == Params(a) + Params(b)
  {
    if a == [] {
      assert a + b == b;
    } else {
      var head := if a[0].Param? then [a[0].k] else [];
      assert (a + b)[0] == a[0];
      assert (a + b)[1..] == a[1..] + b;
      assert Params(a) == head + Params(a[1..]);
      assert Params(a + b) == head + Params(a[1..] + b);
      ParamsConcat(a[1..], b);
    }
  }

  lemma ParamsStep(q: seq<Token>, i: nat)
    requires i < |q|
    ensures Params(q[i..]) == (if q[i].Param? then [q[i].k] else []) + Params(q[i + 1..])
  {
    assert q[i..][1..] == q[i + 1..];
  }

  /** The numbers lo, lo + 1, ..., lo + n - 1. */
  function Iota(lo: nat, n: nat): (r: seq<nat>)
    ensures |r| == n
    ensures forall i | 0 <= i < n :: r[i] == lo + i
  {
    seq(n, i requires 0 <= i < n => lo + i)
  }

  lemma IotaConcat(lo: nat, m: nat, n: nat)
    ensures Iota(lo, m) + Iota(lo + m, n) == Iota(lo, m + n)
  {
  }

  /** Two consecutively numbered pieces make one consecutively numbered query. */
  lemma ParamsConcatIota(a: seq<Token>, b: seq<Token>, lo: nat, m: nat, n: nat)
    requires Params(a) == Iota(lo, m) && Params(b) == Iota(lo + m, n)
    ensures Params(a + b) == Iota(lo, m + n)
  {
    ParamsConcat(a, b);
    IotaConcat(lo, m, n);
  }

  /** strings.Join: the parts with `sep` between consecutive ones. */
  function Join(parts: seq<seq<Token>>, sep: Token): seq<Token> {
    if parts == [] then []
    else if |parts| == 1 then parts[0]
    else parts[0] + [sep] + Join(parts[1..], sep)
  }

  /** The query string handed to the driver: each `$k` spelled with `%d`. */
  function Render(q: seq<Token>): string {
    if q == [] then ""
    else
      (match q[0]
       case Text(s) => s
       case Param(k) => "$" + Strconv.FormatDecimal(k))
      + Render(q[1..])
  }

  predicate EndsWithEquals(s: string) {
    |s| > 0 && s[|s| - 1] == '='
  }
}
