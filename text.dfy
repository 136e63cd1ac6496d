/** The string operations the ledger's filters and exporters use:
    Array.prototype.join, decimal rendering of amounts, ASCII lower-casing
    and substring search. */
module Text {

  /** Number of occurrences of c in s. */
  function CountChar(s: string, c: char): (n: nat)
    ensures n <= |s|
  {
    if s == [] then 0 else CountChar(s[..|s| - 1], c) + (if s[|s| - 1] == c then 1 else 0)
  }

  lemma {:induction false} CountCharAppend(a: string, b: string, c: char)
    ensures CountChar(a + b, c) == CountChar(a, c) + CountChar(b, c)
  {
    if b == [] {
      assert a + b == a;
    } else {
      assert (a + b)[..|a + b| - 1] == a + b[..|b| - 1];
      CountCharAppend(a, b[..|b| - 1], c);
    }
  }

  lemma {:induction false} CountCharAbsent(s: string, c: char)
    requires c !in s
    ensures CountChar(s, c) == 0
  {
    if s != [] {
      CountCharAbsent(s[..|s| - 1], c);
    }
  }

  /** fields.join(sep): the fields with one separator between neighbours. */
  function Join(fields: seq<string>, sep: char): string
  {
    if fields == [] then ""
    else if |fields| == 1 then fields[0]
    else Join(fields[..|fields| - 1], sep) + [sep] + fields[|fields| - 1]
  }

  /** Joining n fields free of the separator places exactly n - 1 separators,
      so the fields can be read back by splitting. */
  lemma {:induction false} JoinSeparatorCount(fields: seq<string>, sep: char)
    requires fields != []
    requires forall i :: 0 <= i < |fields| ==> sep !in fields[i]
    ensures CountChar(Join(fields, sep), sep) == |fields| - 1
  {
    if |fields| == 1 {
      CountCharAbsent(fields[0], sep);
    } else {
      var init := fields[..|fields| - 1];
      JoinSeparatorCount(init, sep);
      CountCharAppend(Join(init, sep), [sep], sep);
      CountCharAppend(Join(init, sep) + [sep], fields[|fields| - 1], sep);
      CountCharAbsent(fields[|fields| - 1], sep);
    }
  }

  /** A character absent from every field and from the separator is absent from the join. */
  lemma {:induction false} JoinAvoids(fields: seq<string>, sep: char, c: char)
    requires c != sep
    requires forall i :: 0 <= i < |fields| ==> c !in fields[i]
    ensures c !in Join(fields, sep)
  {
    if |fields| > 1 {
      JoinAvoids(fields[..|fields| - 1], sep, c);
    }
  }

  function DigitChar(d: nat): (c: char)
    requires d < 10
    ensures '0' <= c <= '9'
  {
    (48 + d) as char
  }

  /** Decimal digits of n, most significant first, without leading zeros. */
  function NatText(n: nat): (s: string)
    ensures |s| >= 1
    ensures forall i :: 0 <= i < |s| ==> '0' <= s[i] <= '9'
  {
    if n < 10 then [DigitChar(n)] else NatText(n / 10) + [DigitChar(n % 10)]
  }

  /** Decimal text of an integer, with a leading minus sign when negative. */
  function IntText(x: int): string
  {
    if x < 0 then "-" + NatText(-x) else NatText(x)
  }

  /** How JavaScript prints the number p / 100 (p in pesewas): no fraction
      when it is whole, otherwise the fraction without trailing zeros. */
  function MoneyText(p: int): string
  {
    var a := if p < 0 then -p else p;
    var sign := if p < 0 then "-" else "";
    var cents := a % 100;
    sign + NatText(a / 100) +
      (if cents == 0 then ""
       else if cents % 10 == 0 then "." + [DigitChar(cents / 10)]
       else "." + [DigitChar(cents / 10), DigitChar(cents % 10)])
  }

  /** String.prototype.toLowerCase on the ASCII letters. */
  function ToLower(s: string): (r: string)
    ensures |r| == |s|
    ensures forall i :: 0 <= i < |s| ==> r[i] == (if 'A' <= s[i] <= 'Z' then (s[i] as int + 32) as char else s[i])
  {
    if s == [] then [] else ToLower(s[..|s| - 1]) + [if 'A' <= s[|s| - 1] <= 'Z' then (s[|s| - 1] as int + 32) as char else s[|s| - 1]]
  }

  /** String.prototype.includes: sub occurs in s at some offset. */
  predicate Includes(s: string, sub: string)
    decreases |s|
  {
    (|sub| <= |s| && s[..|sub|] == sub) || (s != [] && Includes(s[1..], sub))
  }

  /** What Includes means: some offset k starts a copy of sub. */
  lemma {:induction false} IncludesAt(s: string, sub: string, k: nat)
    requires k + |sub| <= |s| && s[k..k + |sub|] == sub
    ensures Includes(s, sub)
    decreases k
  {
    if k > 0 {
      assert s[1..][k - 1..k - 1 + |sub|] == s[k..k + |sub|];
      IncludesAt(s[1..], sub, k - 1);
    }
  }

  /** Rendered numbers hold only digits, a minus sign and a decimal point,
      so they never contain a field or line separator. */
  lemma NumberTextAvoids(p: int, c: char)
    requires !('0' <= c <= '9') && c != '-' && c != '.'
    ensures c !in MoneyText(p) && c !in IntText(p)
  {
    var a := if p < 0 then -p else p;
    assert c !in NatText(a / 100);
    assert c !in NatText(a);
  }
}
