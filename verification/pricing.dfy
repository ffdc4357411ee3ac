/** Reading a catalogue price string such as "₹1,299" as a number of rupees:
    `parseFloat(price.replace(/[₹,]/g, ''))`. The rupee sign and the digit
    group separator are deleted, then the leading decimal digits are read;
    a string with no leading digit reads as "not a number" (None). */
module Pricing {
  import opened Wrappers
  import Seqs

  const Rupee: char := '\U{20B9}'

  predicate IsSymbol(c: char) { c == Rupee || c == ',' }

  /** Characters that survive the stripping. */
  predicate Kept(c: char) { !IsSymbol(c) }

  predicate IsDigit(c: char) { '0' <= c <= '9' }

  function DigitValue(c: char): nat
    requires IsDigit(c)
  {
    c as int - '0' as int
  }

  /** `replace(/[₹,]/g, '')`: a single symbol is deleted. */
  function StripSymbols(s: string): (r: string)
    ensures forall c :: c in r <==> c in s && !IsSymbol(c)
    ensures |r| <= |s|
    ensures |s| == 1 && IsSymbol(s[0]) ==> r == []
  {
    Seqs.FilterMembers(s, Kept);
    Seqs.Filter(s, Kept)
  }

  /** A string without symbols is left unchanged. */
  lemma StripSymbolsKeepsPlain(s: string)
    requires forall i :: 0 <= i < |s| ==> !IsSymbol(s[i])
    ensures StripSymbols(s) == s
  {
    Seqs.FilterKeepsAll(s, Kept);
  }

  /** The other characters keep their order and multiplicity: stripping a
      concatenation strips each part in turn. */
  lemma StripSymbolsAppend(a: string, b: string)
    ensures StripSymbols(a + b) == StripSymbols(a) + StripSymbols(b)
  {
    Seqs.FilterAppend(a, b, Kept);
  }

  /** The longest prefix of `s` made of decimal digits. */
  function LeadingDigits(s: string): (r: string)
    ensures r <= s
    ensures forall i :: 0 <= i < |r| ==> IsDigit(r[i])
    ensures |r| < |s| ==> !IsDigit(s[|r|])
  {
    if s == [] || !IsDigit(s[0]) then [] else [s[0]] + LeadingDigits(s[1..])
  }

  /** The value of a string of decimal digits, most significant first. */
  function DigitsValue(ds: string): nat
    requires forall i :: 0 <= i < |ds| ==> IsDigit(ds[i])
  {
    if ds == [] then 0
    else DigitsValue(ds[..|ds| - 1]) * 10 + DigitValue(ds[|ds| - 1])
  }

  /** `parseFloat` after the symbols are stripped; None stands for NaN. */
  function ParsePrice(s: string): Option<nat> {
    var ds := LeadingDigits(StripSymbols(s));
    if ds == [] then None else Some(DigitsValue(ds))
  }

  /** The decimal digits of `n`, without separators. */
  function Digits(n: nat): (r: string)
    ensures r != []
    ensures forall i :: 0 <= i < |r| ==> IsDigit(r[i])
  {
    if n < 10 then [('0' as int + n) as char]
    else Digits(n / 10) + [('0' as int + n % 10) as char]
  }

  /** Reading back the digits of `n` gives `n`. */
  lemma {:induction false} DigitsValueOfDigits(n: nat)
    ensures DigitsValue(Digits(n)) == n
  {
    var ds := Digits(n);
    if n >= 10 {
      assert ds[..|ds| - 1] == Digits(n / 10);
      DigitsValueOfDigits(n / 10);
    }
  }

  /** A digit string is its own longest digit prefix. */
  lemma {:induction false} LeadingDigitsOfDigits(s: string)
    requires forall i :: 0 <= i < |s| ==> IsDigit(s[i])
    ensures LeadingDigits(s) == s
  {
    if s != [] {
      LeadingDigitsOfDigits(s[1..]);
    }
  }

  /** Round trip: a price written as "₹" followed by the digits of `n` reads
      as `n` rupees. */
  lemma PriceRoundTrip(n: nat)
    ensures ParsePrice([Rupee] + Digits(n)) == Some(n)
  {
    var ds := Digits(n);
    StripSymbolsAppend([Rupee], ds);
    StripSymbolsKeepsPlain(ds);
    assert StripSymbols([Rupee] + ds) == ds;
    LeadingDigitsOfDigits(ds);
    DigitsValueOfDigits(n);
  }

  /** Rupee signs and separators may sit anywhere: inserting one changes
      nothing. */
  lemma SymbolIgnored(a: string, c: char, b: string)
    requires IsSymbol(c)
    ensures ParsePrice(a + [c] + b) == ParsePrice(a + b)
  {
    assert StripSymbols(a + [c] + b) == StripSymbols(a) + StripSymbols(b) by {
      StripSymbolsAppend(a + [c], b);
      StripSymbolsAppend(a, [c]);
    }
    StripSymbolsAppend(a, b);
  }

  /** The thousands separator of "₹1,299" is ignored. */
  lemma GroupSeparatorIgnored()
    ensures ParsePrice([Rupee] + "1,299") == ParsePrice([Rupee] + "1299")
  {
    SymbolIgnored([Rupee] + "1", ',', "299");
    assert [Rupee] + "1" + "299" == [Rupee] + "1299";
    assert [Rupee] + "1" + [','] + "299" == [Rupee] + "1,299";
  }

  /** The catalogue's own format: "₹1,299" reads as 1299 rupees. */
  lemma GroupedPriceExample()
    ensures ParsePrice([Rupee] + "1,299") == Some(1299)
  {
    assert Digits(1299) == "1299" by {
      assert Digits(1) == "1";
      assert Digits(12) == Digits(1) + "2";
      assert Digits(129) == Digits(12) + "9";
      assert Digits(1299) == Digits(129) + "9";
    }
    PriceRoundTrip(1299);
    GroupSeparatorIgnored();
  }
}
