// Transaction identifiers: every one that is made passes the check that recovery makes,
// and no two makings give the same one.
module TransactionIds {

  predicate IsAlphanumeric(c: char) { '0' <= c <= '9' || 'a' <= c <= 'z' || 'A' <= c <= 'Z' }

  // `valid_transaction_id`.
  predicate ValidTransactionId(value: string) {
    "txn-" <= value && |value| <= 128 && forall i | 0 <= i < |value| :: IsAlphanumeric(value[i]) || value[i] == '-'
  }

  function Digit(d: nat): char
    requires d < 16
  {
    if d < 10 then '0' + d as char else 'a' + (d - 10) as char
  }

  datatype Base = Ten | Sixteen

  function Size(base: Base): nat { if base.Ten? then 10 else 16 }

  function Quotient(n: nat, base: Base): (q: nat)
    ensures n >= Size(base) ==> 0 < q < n
  {
    if base.Ten? then n / 10 else n / 16
  }

  function Remainder(n: nat, base: Base): (r: nat)
    ensures r < Size(base) && n == Quotient(n, base) * Size(base) + r
  {
    if base.Ten? then n % 10 else n % 16
  }

  // A number in this base, without leading zeros.
  function Digits(n: nat, base: Base): (r: string)
    ensures r != [] && forall i | 0 <= i < |r| :: IsAlphanumeric(r[i])
    ensures n < Size(base) <==> |r| == 1
  {
    if n < Size(base) then [Digit(n)] else Digits(Quotient(n, base), base) + [Digit(Remainder(n, base))]
  }

  function DigitValue(c: char): nat
    requires '0' <= c <= '9' || 'a' <= c <= 'f'
  {
    if c <= '9' then c as nat - '0' as nat else c as nat - 'a' as nat + 10
  }

  predicate LowerDigits(s: string) { forall i | 0 <= i < |s| :: '0' <= s[i] <= '9' || 'a' <= s[i] <= 'f' }

  // What the digits say, the most significant first.
  function NumberOf(s: string, size: nat): nat
    requires LowerDigits(s)
  {
    if s == [] then 0 else NumberOf(s[..|s| - 1], size) * size + DigitValue(s[|s| - 1])
  }

  lemma {:induction false} DigitsRead(n: nat, base: Base)
    ensures LowerDigits(Digits(n, base))
    ensures NumberOf(Digits(n, base), if base.Ten? then 10 else 16) == n && (n > 0 ==> Digits(n, base)[0] != '0')
  {
    hide IsAlphanumeric;
    var r := Digits(n, base);
    if n < Size(base) {
      assert r == [Digit(n)] && r[..0] == [];
    } else {
      DigitsRead(Quotient(n, base), base);
      assert r[..|r| - 1] == Digits(Quotient(n, base), base);
    }
  }

  // A name that recovery recognises is the name of one file below the directory it is joined to, and not that
  // of the directory or its parent: no dot, no separator of any system, no control or other special byte.
  lemma ValidNamesAFile(value: string)
    requires ValidTransactionId(value)
    ensures 4 <= |value| <= 128 && value[..4] == "txn-"
    ensures forall c | c in value :: ' ' < c < '{' && c != '.' && c != '/' && c != '\\' && c != ':' && c != '_'
  {
  }

  // `transaction_id`, of the process, the clock and the counter.
  function TransactionId(pid: nat, nanos: nat, counter: nat): string {
    "txn-" + Digits(pid, Ten) + "-" + Digits(nanos, Sixteen) + "-" + Digits(counter, Sixteen)
  }

  lemma {:induction false} DigitsInjective(m: nat, n: nat, base: Base)
    requires Digits(m, base) == Digits(n, base)
    ensures m == n
  {
    hide Quotient, Remainder, IsAlphanumeric, Digit;
    var a, b := Digits(m, base), Digits(n, base);
    if m < Size(base) {
      assert a[0] == b[0];
      DigitInjective(m, n);
    } else {
      assert a[|a| - 1] == Digit(Remainder(m, base)) && b[|b| - 1] == Digit(Remainder(n, base));
      DigitInjective(Remainder(m, base), Remainder(n, base));
      assert a[..|a| - 1] == Digits(Quotient(m, base), base) && b[..|b| - 1] == Digits(Quotient(n, base), base);
      DigitsInjective(Quotient(m, base), Quotient(n, base), base);
    }
  }

  lemma DigitInjective(d: nat, e: nat)
    requires d < 16 && e < 16 && Digit(d) == Digit(e)
    ensures d == e
  {
  }

  function Power(base: Base, k: nat): nat {
    if k == 0 then 1 else if base.Ten? then 10 * Power(base, k - 1) else 16 * Power(base, k - 1)
  }

  lemma {:induction false} DigitsBound(n: nat, base: Base, k: nat)
    requires k > 0 && n < Power(base, k)
    ensures |Digits(n, base)| <= k
  {
    assert Power(base, 0) == 1 && Power(base, 1) == Size(base);
    if n >= Size(base) {
      assert Quotient(n, base) < Power(base, k - 1);
      DigitsBound(Quotient(n, base), base, k - 1);
    }
  }

  // The parts between hyphens can be told apart.
  lemma HyphenSplit(a: string, s: string, b: string, t: string)
    requires (forall i | 0 <= i < |a| :: a[i] != '-') && (forall i | 0 <= i < |b| :: b[i] != '-')
    requires a + "-" + s == b + "-" + t
    ensures a == b && s == t
  {
    var r := a + "-" + s;
    assert r[|a|] == '-' && r[|b|] == '-';
    assert forall i | 0 <= i < |a| :: r[i] == a[i];
    assert forall i | 0 <= i < |b| :: r[i] == b[i];
    assert |a| == |b|;
    assert a == r[..|a|] && b == r[..|a|] && s == r[|a| + 1..] && t == r[|a| + 1..];
  }

  // Equal identifiers come from the same process, time and count.
  lemma TransactionIdInjective(p: nat, m: nat, c: nat, q: nat, n: nat, d: nat)
    requires TransactionId(p, m, c) == TransactionId(q, n, d)
    ensures p == q && m == n && c == d
  {
    hide Digits;
    var s, t := Digits(m, Sixteen) + "-" + Digits(c, Sixteen), Digits(n, Sixteen) + "-" + Digits(d, Sixteen);
    assert TransactionId(p, m, c)[4..] == Digits(p, Ten) + "-" + s;
    assert TransactionId(q, n, d)[4..] == Digits(q, Ten) + "-" + t;
    HyphenSplit(Digits(p, Ten), s, Digits(q, Ten), t);
    HyphenSplit(Digits(m, Sixteen), Digits(c, Sixteen), Digits(n, Sixteen), Digits(d, Sixteen));
    DigitsInjective(p, q, Ten);
    DigitsInjective(m, n, Sixteen);
    DigitsInjective(c, d, Sixteen);
  }

  lemma PowersOf()
    ensures Power(Ten, 10) == 10_000_000_000
    ensures Power(Sixteen, 16) == 0x1_0000_0000_0000_0000
    ensures Power(Sixteen, 32) == 0x1_0000_0000_0000_0000_0000_0000_0000_0000
  {
    assert Power(Ten, 5) == 100_000;
    assert Power(Ten, 10) == 10_000_000_000;
    assert Power(Sixteen, 8) == 0x1_0000_0000;
    assert Power(Sixteen, 16) == 0x1_0000_0000_0000_0000;
    assert Power(Sixteen, 24) == 0x1_0000_0000_0000_0000_0000_0000;
  }

  // Every identifier that is made is one that recovery recognises, at most 64 characters long.
  lemma TransactionIdValid(pid: nat, nanos: nat, counter: nat)
    requires pid < 0x1_0000_0000 && nanos < 0x1_0000_0000_0000_0000_0000_0000_0000_0000
    requires counter < 0x1_0000_0000_0000_0000
    ensures ValidTransactionId(TransactionId(pid, nanos, counter)) && |TransactionId(pid, nanos, counter)| <= 64
  {
    hide Digits;
    PowersOf();
    DigitsBound(pid, Ten, 10);
    DigitsBound(nanos, Sixteen, 32);
    DigitsBound(counter, Sixteen, 16);
  }
}
