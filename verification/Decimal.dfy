/** Decimal rendering of naturals: the `str(index)` and `int(key)` pair that keys
    the step map and numbers the slugs. */
module Decimal {

  predicate IsDigit(c: char) { '0' <= c <= '9' }

  predicate AllDigits(s: string) { forall k :: 0 <= k < |s| ==> IsDigit(s[k]) }

  function Str(n: nat): (s: string)
    ensures |s| > 0 && AllDigits(s)
  {
    var last := [('0' as int + n % 10) as char];
    if n < 10 then last else Str(n / 10) + last
  }

  function Int(s: string): nat
    requires AllDigits(s)
  {
    if s == "" then 0 else Int(s[..|s| - 1]) * 10 + (s[|s| - 1] as int - '0' as int)
  }

  /** Reading back a rendered number gives the number. */
  lemma {:induction false} IntStr(n: nat)
    ensures Int(Str(n)) == n
  {
    var s := Str(n);
    if n < 10 {
      assert s[..0] == "";
    } else {
      IntStr(n / 10);
      assert s[..|s| - 1] == Str(n / 10);
    }
  }

  /** Decimal digits, the most significant first and without leading zeros. */
  lemma {:induction false} StrIsDecimal(n: nat)
    ensures n < 10 ==> Str(n) == ["0123456789"[n]]
    ensures n >= 10 ==> Str(n) == Str(n / 10) + Str(n % 10)
    ensures n > 0 ==> Str(n)[0] != '0'
  {
    if n >= 10 { StrIsDecimal(n / 10); }
  }

  lemma StrInjective(a: nat, b: nat)
    requires Str(a) == Str(b)
    ensures a == b
  {
    IntStr(a);
    IntStr(b);
  }

  /** The keys "0" .. "k-1". */
  function Keys(k: nat): (ks: set<string>) { set i | 0 <= i < k :: Str(i) }

  lemma KeyIn(i: nat, k: nat)
    ensures Str(i) in Keys(k) <==> i < k
  {
    if Str(i) in Keys(k) {
      var j :| 0 <= j < k && Str(j) == Str(i);
      StrInjective(i, j);
    }
  }

  lemma KeysMore(k: nat)
    ensures Keys(k + 1) == Keys(k) + {Str(k)} && Str(k) !in Keys(k)
  {
    KeyIn(k, k);
    hide Str;
  }

  lemma {:induction false} KeysSize(k: nat)
    ensures |Keys(k)| == k
  {
    if k == 0 {
      assert Keys(0) == {};
    } else {
      KeysSize(k - 1);
      KeysMore(k - 1);
    }
  }
}
