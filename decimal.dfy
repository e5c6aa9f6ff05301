/** Python's `str(n)` for naturals and the matching parse. Used for step numbers
    ("Subquery order 1") and for the text form of ObjectIds. */
module Decimal {
  import opened Wrappers

  function Digit(d: nat): char
    requires d < 10
  {
    ('0' as int + d) as char
  }

  function DigitValue(c: char): Option<nat>
  {
    if '0' <= c <= '9' then Some(c as int - '0' as int) else None
  }

  /** `str(n)`: decimal digits, most significant first, no leading zeros. */
  function Show(n: nat): (r: string)
    ensures |r| >= 1
    ensures forall i :: 0 <= i < |r| ==> '0' <= r[i] <= '9'
    decreases n
  {
    if n < 10 then [Digit(n)] else Show(n / 10) + [Digit(n % 10)]
  }

  /** `int(s)` restricted to plain decimal digits; None when `s` is not such a text. */
  function Parse(s: string): Option<nat>
    decreases |s|
  {
    if |s| == 0 then None
    else
      match DigitValue(s[|s| - 1])
      case None => None
      case Some(d) =>
        if |s| == 1 then Some(d)
        else
          match Parse(s[..|s| - 1])
          case None => None
          case Some(p) => Some(p * 10 + d)
  }

  /** Parsing the text of a number gives the number back. */
  lemma {:induction false} ParseShow(n: nat)
    ensures Parse(Show(n)) == Some(n)
    decreases n
  {
    if n >= 10 {
      var q, d := n / 10, n % 10;
      ParseShow(q);
      var s := Show(n);
      var init := Show(q);
      assert s == init + [Digit(d)] && |s| >= 2;
      assert s[..|s| - 1] == init;
      assert DigitValue(s[|s| - 1]) == Some(d);
    }
  }

  /** Distinct numbers have distinct texts. */
  lemma ShowInjective(m: nat, n: nat)
    ensures Show(m) == Show(n) ==> m == n
  {
    ParseShow(m);
    ParseShow(n);
  }

  /** Indexing a concatenation inside its first part; stated as a lemma so that the
      impossible branches below gain the index term without a checked statement. */
  lemma CharOfPrefix(s: string, t: string, k: int)
    ensures 0 <= k < |s| ==> (s + t)[k] == s[k]
  {
  }

  /** A number's text followed by a non-digit can be read back off the front: two such
      texts that are equal start with the same number. */
  lemma ShowThenNonDigit(m: nat, n: nat, x: string, y: string)
    requires |x| > 0 && |y| > 0 && !('0' <= x[0] <= '9') && !('0' <= y[0] <= '9')
    requires Show(m) + x == Show(n) + y
    ensures m == n
  {
    var a, b := Show(m), Show(n);
    if |a| < |b| {
      CharOfPrefix(b, y, |a|);
    } else if |b| < |a| {
      CharOfPrefix(a, x, |b|);
    } else {
      assert a == (a + x)[..|a|];
      assert b == (b + y)[..|b|];
      ShowInjective(m, n);
    }
  }

  /** `str(i)` for any integer. */
  function ShowInt(i: int): string
  {
    if i < 0 then "-" + Show(-i) else Show(i)
  }
}
