/** Amounts as the generated files hold them: cents written as a decimal number. */
module Money {
  import opened Decimal

  function FmtMoney(m: int): string {
    var cents := if m < 0 then -m else m;
    (if m < 0 then "-" else "") + Digits(cents / 100) + "." + [Digit(cents % 100 / 10), Digit(cents % 10)]
  }

  /** The number a string of digits stands for. */
  function ReadDigits(s: string): int {
    if s == [] then 0 else 10 * ReadDigits(s[..|s| - 1]) + (s[|s| - 1] as int - '0' as int)
  }

  /** The cents an amount stands for. */
  function ReadMoney(s: string): int {
    if |s| < 4 then 0
    else if s[0] == '-' then -ReadMoney(s[1..])
    else 100 * ReadDigits(s[..|s| - 3]) + ReadDigits(s[|s| - 2..])
  }

  lemma {:induction false} DigitsRead(n: nat)
    ensures ReadDigits(Digits(n)) == n
  {
    if n >= 10 {
      DigitsRead(n / 10);
      assert Digits(n)[..|Digits(n)| - 1] == Digits(n / 10);
    }
  }

  lemma CentsRead(cents: nat)
    ensures ReadMoney(FmtMoney(cents)) == cents
  {
    var whole, part := Digits(cents / 100), [Digit(cents % 100 / 10), Digit(cents % 10)];
    var s := FmtMoney(cents);
    assert s == whole + "." + part;
    assert s[..|s| - 3] == whole && s[|s| - 2..] == part;
    DigitsRead(cents / 100);
    assert part[..1] == [part[0]] && ReadDigits(part[..1]) == cents % 100 / 10;
  }

  /** Every amount is recovered from its text. */
  lemma MoneyRead(m: int)
    ensures ReadMoney(FmtMoney(m)) == m
  {
    if m < 0 {
      assert FmtMoney(m) == "-" + FmtMoney(-m);
      assert FmtMoney(m)[1..] == FmtMoney(-m);
      CentsRead(-m);
    } else {
      CentsRead(m);
    }
  }
}
