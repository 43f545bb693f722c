/** Decimal numbers as the program writes them, and a reader that takes the digits from the left. */
module Decimals {
  import opened Wrappers

  function Decimal(n: nat): string {
    (if n < 10 then "" else Decimal(n / 10)) + [('0' as int + n % 10) as char]
  }

  predicate IsDigit(c: char) {
    '0' <= c <= '9'
  }

  /** The value of the digits of `s` behind those already read. */
  function ReadDigits(s: string, read: nat): Option<nat> {
    if s == "" then Some(read)
    else if IsDigit(s[0]) then ReadDigits(s[1..], read * 10 + (s[0] as int - '0' as int))
    else None
  }

  function ReadDecimal(s: string): Option<nat> {
    if s == "" then None else ReadDigits(s, 0)
  }

  lemma {:induction false} ReadLast(s: string, d: char, read: nat)
    requires ReadDigits(s, read).Some? && IsDigit(d)
    ensures ReadDigits(s + [d], read) == Some(ReadDigits(s, read).value * 10 + (d as int - '0' as int))
  {
    if s == "" {
      assert s + [d] == [d];
      assert [d][1..] == "";
    } else {
      assert (s + [d])[1..] == s[1..] + [d];
      ReadLast(s[1..], d, read * 10 + (s[0] as int - '0' as int));
    }
  }

  /** Every number reads back as itself. */
  lemma {:induction false} DecimalRoundTrip(n: nat)
    ensures ReadDecimal(Decimal(n)) == Some(n)
    ensures Decimal(n) != "" && forall i | 0 <= i < |Decimal(n)| :: IsDigit(Decimal(n)[i])
  {
    var last := ('0' as int + n % 10) as char;
    if n >= 10 {
      DecimalRoundTrip(n / 10);
      ReadLast(Decimal(n / 10), last, 0);
    } else {
      ReadLast("", last, 0);
      assert "" + [last] == [last];
    }
  }
}
