/** The decimal grammar by its parts, and that the scanner finds the longest decimal. */
module Decimals {
  import opened Text
  import opened Lexer

  ghost predicate DigitsAt(src: Utf16, i: nat, j: nat) {
    i <= j <= |src| && forall k | i <= k < j :: 48 <= src[k] <= 57
  }

  ghost predicate SignAt(src: Utf16, i: nat, j: nat) {
    i <= j <= |src| && (j == i || (j == i + 1 && (src[i] == '+' as int || src[i] == '-' as int)))
  }

  /** Digits, or digits around one point with at least one digit in all. */
  ghost predicate MantissaAt(src: Utf16, i: nat, j: nat) {
    || (i < j && DigitsAt(src, i, j))
    || (i + 1 < j && exists point | i <= point < j ::
          DigitsAt(src, i, point) && point < |src| && src[point] == '.' as int && DigitsAt(src, point + 1, j))
  }

  /** Nothing, or the letter in either case, an optional sign and digits. */
  ghost predicate ExponentAt(src: Utf16, i: nat, j: nat) {
    || i == j
    || (&& i < j <= |src| && (src[i] == 'e' as int || src[i] == 'E' as int)
        && exists digits | i < digits < j :: SignAt(src, i + 1, digits) && DigitsAt(src, digits, j))
  }

  /** A decimal number stands in `src` from `i` to `j`. */
  ghost predicate DecimalAt(src: Utf16, i: nat, j: nat) {
    exists a, b | i <= a < b <= j :: SignAt(src, i, a) && MantissaAt(src, a, b) && ExponentAt(src, b, j)
  }

  lemma {:induction false} RunOfDigits(src: Utf16, i: nat, j: nat)
    requires DigitsAt(src, i, j)
    ensures DigitsEnd(src, i) >= j
    decreases j - i
  {
    if i < j { RunOfDigits(src, i + 1, j); }
  }

  lemma MantissaWithin(src: Utf16, i: nat, j: nat)
    requires MantissaAt(src, i, j)
    ensures i < j <= MantissaEnd(src, i)
  {
    if i < j && DigitsAt(src, i, j) {
      RunOfDigits(src, i, j);
    } else {
      var point :| i <= point < j && DigitsAt(src, i, point) && point < |src| && src[point] == '.' as int
                   && DigitsAt(src, point + 1, j);
      RunOfDigits(src, i, point);
      RunOfDigits(src, point + 1, j);
    }
  }

  lemma MantissaStands(src: Utf16, i: nat)
    requires i <= |src| && MantissaEnd(src, i) > i
    ensures MantissaAt(src, i, MantissaEnd(src, i))
  {
    var whole := DigitsEnd(src, i);
    if whole < |src| && src[whole] == DOT {
      assert DigitsAt(src, i, whole) && DigitsAt(src, whole + 1, DigitsEnd(src, whole + 1));
    }
  }

  lemma ExponentWithin(src: Utf16, i: nat, j: nat)
    requires i <= |src| && ExponentAt(src, i, j)
    ensures j <= ExponentEnd(src, i)
  {
    if i != j {
      var digits :| i < digits < j && SignAt(src, i + 1, digits) && DigitsAt(src, digits, j);
      RunOfDigits(src, digits, j);
    }
  }

  lemma ExponentStands(src: Utf16, i: nat)
    requires i <= |src|
    ensures ExponentAt(src, i, ExponentEnd(src, i))
  {
    var j := ExponentEnd(src, i);
    if j > i {
      var digits := SignEnd(src, i + 1);
      assert SignAt(src, i + 1, digits) && DigitsAt(src, digits, j);
    }
  }

  /** What the scanner finds at `i` is a decimal, and no longer one starts there; it finds none exactly when there is none. */
  lemma DecimalIsLongest(src: Utf16, i: nat)
    requires i <= |src|
    ensures DecimalEnd(src, i) > i ==> DecimalAt(src, i, DecimalEnd(src, i))
    ensures forall j: nat :: DecimalAt(src, i, j) ==> i < j <= DecimalEnd(src, i)
  {
    var unsigned := SignEnd(src, i);
    var mantissa := MantissaEnd(src, unsigned);
    if mantissa > unsigned {
      MantissaStands(src, unsigned);
      ExponentStands(src, mantissa);
      assert SignAt(src, i, unsigned);
    }
    forall j: nat | DecimalAt(src, i, j) ensures i < j <= DecimalEnd(src, i) {
      DecimalWithin(src, i, j);
    }
  }

  lemma DecimalWithin(src: Utf16, i: nat, j: nat)
    requires i <= |src| && DecimalAt(src, i, j)
    ensures i < j <= DecimalEnd(src, i)
  {
    var a, b :| i <= a < b <= j && SignAt(src, i, a) && MantissaAt(src, a, b) && ExponentAt(src, b, j);
    MantissaWithin(src, a, b);
    assert a == SignEnd(src, i);
    var mantissa := MantissaEnd(src, a);
    if b < mantissa && b < j { EndsNowhere(src, a, b); }
    if b == mantissa { ExponentWithin(src, b, j); }
  }

  /** Inside a mantissa stands no letter. */
  lemma EndsNowhere(src: Utf16, i: nat, b: nat)
    requires i <= |src| && i <= b < MantissaEnd(src, i)
    ensures src[b] == DOT || IsDigit(src[b])
  {}

  /** A text is a decimal in full exactly when the scanner takes all of it. */
  lemma CompleteDecimal(s: Utf16)
    ensures DecimalAt(s, 0, |s|) <==> DecimalEnd(s, 0) != 0 && DecimalEnd(s, 0) == |s|
  {
    DecimalIsLongest(s, 0);
  }
}
