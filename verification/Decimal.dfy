/** Decimal printing of integers, as std::to_string and lexical_cast do it, with its inverse. */
module Decimal {

  function Digit(n: nat): char
    requires n < 10
  {
    '0' + n as char
  }

  function Print(n: nat): (s: string)
    ensures s != "" && forall c :: c in s ==> '0' <= c <= '9'
  {
    if n < 10 then [Digit(n)] else Print(n / 10) + [Digit(n % 10)]
  }

  function PrintInt(i: int): string {
    if i < 0 then "-" + Print(-i) else Print(i)
  }

  function Read(s: string): int {
    if s == "" then 0 else 10 * Read(s[..|s| - 1]) + (s[|s| - 1] as int - '0' as int)
  }

  function ReadInt(s: string): int {
    if s != "" && s[0] == '-' then -Read(s[1..]) else Read(s)
  }

  lemma {:induction false} ReadPrint(n: nat)
    ensures Read(Print(n)) == n
  {
    if n >= 10 {
      ReadPrint(n / 10);
      assert Print(n)[..|Print(n)| - 1] == Print(n / 10);
    } else {
      assert [Digit(n)][..0] == "";
    }
  }

  /** Printing loses nothing, for every sign and size. */
  lemma ReadIntPrintInt(i: int)
    ensures ReadInt(PrintInt(i)) == i
  {
    if i < 0 {
      ReadPrint(-i);
      assert PrintInt(i)[1..] == Print(-i);
    } else {
      ReadPrint(i);
      assert Print(i)[0] in Print(i);
    }
  }

  /** A number as people write it: digits, without a leading zero. */
  predicate Plain(s: string) {
    && s != "" && (forall i :: 0 <= i < |s| ==> '0' <= s[i] <= '9')
    && (s[0] == '0' ==> |s| == 1)
  }

  lemma {:induction false} PrintedIsPlain(n: nat)
    ensures Plain(Print(n)) && (n > 0 ==> Print(n)[0] != '0')
  {
    if n >= 10 {
      PrintedIsPlain(n / 10);
    }
  }

  lemma {:induction false} PlainIsPrinted(s: string)
    requires Plain(s)
    ensures Read(s) >= 0 && s == Print(Read(s)) && (s[0] != '0' ==> Read(s) > 0)
  {
    var n := |s| - 1;
    var d := s[n] as int - '0' as int;
    assert s == s[..n] + [s[n]];
    if n == 0 {
      assert s[..0] == "" && Read(s) == d;
    } else {
      PlainIsPrinted(s[..n]);
      assert Read(s) / 10 == Read(s[..n]) && Read(s) % 10 == d;
    }
  }

  /** The printed form of a number is its only form without leading zeros. */
  lemma PrintIsThePlainForm(n: nat, s: string)
    ensures s == Print(n) <==> Plain(s) && Read(s) == n
  {
    PrintedIsPlain(n);
    ReadPrint(n);
    if Plain(s) {
      PlainIsPrinted(s);
    }
  }
}
