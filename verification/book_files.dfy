/** The names of the per-strategy opening-book files written by CreateBook:
    the strategy id plus one, zero-padded to two digits, then "_", the
    strategy's name and ".bin" ("05_name.bin"). The book contents and the
    writing of the files are not part of this model. */
module BookFiles {

  predicate IsDigit(c: char) {
    '0' <= c <= '9'
  }

  function DigitChar(d: nat): (c: char)
    requires d < 10
    ensures IsDigit(c)
  {
    "0123456789"[d]
  }

  function DigitValue(c: char): (d: nat)
    requires IsDigit(c)
    ensures d < 10 && DigitChar(d) == c
  {
    (c as int - '0' as int)
  }

  /** `std::to_string` of a non-negative number: its decimal digits, most
      significant first, without leading zeros. */
  function DecimalString(n: nat): (s: string)
    ensures 1 <= |s|
    ensures forall i :: 0 <= i < |s| ==> IsDigit(s[i])
    ensures n < 10 <==> |s| == 1
    ensures n < 100 ==> |s| <= 2
    ensures n >= 10 ==> s[0] != '0'
    decreases n
  {
    if n < 10 then [DigitChar(n)] else DecimalString(n / 10) + [DigitChar(n % 10)]
  }

  /** The number a string of decimal digits denotes. */
  function ParseDecimal(s: string): nat
    requires forall i :: 0 <= i < |s| ==> IsDigit(s[i])
    decreases |s|
  {
    if s == [] then 0 else ParseDecimal(s[..|s| - 1]) * 10 + DigitValue(s[|s| - 1])
  }

  lemma {:induction false} ParseDecimalString(n: nat)
    ensures ParseDecimal(DecimalString(n)) == n
    decreases n
  {
    if n >= 10 {
      var s := DecimalString(n);
      assert s[..|s| - 1] == DecimalString(n / 10);
      ParseDecimalString(n / 10);
    }
  }

  /** A leading zero does not change the value. */
  lemma {:induction false} ParseLeadingZero(s: string)
    requires forall i :: 0 <= i < |s| ==> IsDigit(s[i])
    ensures ParseDecimal("0" + s) == ParseDecimal(s)
    decreases |s|
  {
    if s != [] {
      assert ("0" + s)[..|"0" + s| - 1] == "0" + s[..|s| - 1];
      ParseLeadingZero(s[..|s| - 1]);
    }
  }

  /** `id_str`: the book number, with a "0" in front when it is below 10. */
  function IdPrefix(bookId: nat): (s: string)
    ensures 2 <= |s|
    ensures bookId < 100 ==> |s| == 2
    ensures forall i :: 0 <= i < |s| ==> IsDigit(s[i])
    ensures s[0] == '0' <==> bookId < 10
    ensures ParseDecimal(s) == bookId
  {
    ParseDecimalString(bookId);
    if bookId < 10 then
      ParseLeadingZero(DecimalString(bookId));
      "0" + DecimalString(bookId)
    else
      DecimalString(bookId)
  }

  /** The file name of the book of strategy `strategyId` (counted from 0). */
  function BookFileName(strategyId: nat, strategyName: string): string {
    IdPrefix(strategyId + 1) + "_" + strategyName + ".bin"
  }

  /** For the first 99 strategies the name splits back into its parts: two
      digits giving the book number, "_", the strategy name, ".bin". */
  lemma BookFileNameRoundTrip(strategyId: nat, strategyName: string)
    requires strategyId + 1 < 100
    ensures var f := BookFileName(strategyId, strategyName);
            && |f| == |strategyName| + 7
            && (forall i :: 0 <= i < 2 ==> IsDigit(f[i]))
            && ParseDecimal(f[..2]) == strategyId + 1
            && f[2] == '_'
            && f[3..|f| - 4] == strategyName
            && f[|f| - 4..] == ".bin"
  {
    var f := BookFileName(strategyId, strategyName);
    var prefix := IdPrefix(strategyId + 1);
    assert f == prefix + "_" + strategyName + ".bin";
    assert f[..2] == prefix;
    assert f[3..|f| - 4] == strategyName;
  }

  /** Two strategies never share a file, and no strategy's file collides
      with the all-strategies book "00_...", written first. */
  lemma BookFileNamesDistinct(id1: nat, name1: string, id2: nat, name2: string)
    requires id1 + 1 < 100 && id2 + 1 < 100
    requires (id1, name1) != (id2, name2)
    ensures BookFileName(id1, name1) != BookFileName(id2, name2)
    ensures BookFileName(id1, name1)[..2] != "00"
  {
    BookFileNameRoundTrip(id1, name1);
    BookFileNameRoundTrip(id2, name2);
  }
}
