/** PIN clean-up and validation: every non-digit character is dropped and the
    remaining code is accepted when it has between four and eight digits. */
module Pin {
  import opened Values

  const MinPinLength: nat := 4
  const MaxPinLength: nat := 8

  /** The character class [0-9]. */
  predicate IsDigit(c: char)
  {
    '0' <= c <= '9'
  }

  predicate AllDigits(s: string)
  {
    forall i :: 0 <= i < |s| ==> IsDigit(s[i])
  }

  /** `s.replace(/[^0-9]/g, '')`: the digits of `s`, in order. */
  function DigitsOf(s: string): (r: string)
    ensures |r| <= |s|
    ensures AllDigits(r)
    decreases |s|
  {
    if |s| == 0 then ""
    else
      var rest := DigitsOf(s[1..]);
      if IsDigit(s[0]) then [s[0]] + rest else rest
  }

  /** No digit is lost and nothing else is kept: a character occurs in the
      cleaned string exactly when it is a digit occurring in the input. */
  lemma {:induction false} DigitsOfMembers(s: string, c: char)
    ensures c in DigitsOf(s) <==> c in s && IsDigit(c)
    decreases |s|
  {
    if |s| > 0 {
      DigitsOfMembers(s[1..], c);
      assert c in s <==> c == s[0] || c in s[1..];
    }
  }

  /** The clean-up keeps order: the digits of a concatenation are the
      concatenation of the digits. */
  lemma {:induction false} DigitsOfAppend(a: string, b: string)
    ensures DigitsOf(a + b) == DigitsOf(a) + DigitsOf(b)
    decreases |a|
  {
    if |a| == 0 {
      assert a + b == b;
    } else {
      assert (a + b)[1..] == a[1..] + b;
      DigitsOfAppend(a[1..], b);
    }
  }

  /** A string of digits only is left as it is. */
  lemma {:induction false} DigitsOfDigits(s: string)
    requires AllDigits(s)
    ensures DigitsOf(s) == s
    decreases |s|
  {
    if |s| > 0 {
      DigitsOfDigits(s[1..]);
      assert [s[0]] + s[1..] == s;
    }
  }

  /** Cleaning twice is the same as cleaning once. */
  lemma DigitsOfIdempotent(s: string)
    ensures DigitsOf(DigitsOf(s)) == DigitsOf(s)
  {
    DigitsOfDigits(DigitsOf(s));
  }

  /** The cleaned PIN: an absent or empty input cleans to the empty string. */
  function CleanPin(input: Option<string>): (r: string)
    ensures !Truthy(input) ==> r == ""
    ensures input.Some? ==> r == DigitsOf(input.value)
  {
    if Truthy(input) then DigitsOf(input.value) else ""
  }

  /** The validity test exactly as written: not empty, not shorter than four,
      not longer than eight. The emptiness test is subsumed by the length bound:
      a PIN is valid exactly when its cleaned length lies in [4, 8]. */
  predicate IsValidPin(input: Option<string>)
    ensures IsValidPin(input) <==> MinPinLength <= |CleanPin(input)| <= MaxPinLength
  {
    var pin := CleanPin(input);
    !(pin == "" || |pin| < MinPinLength || |pin| > MaxPinLength)
  }

  /** The clean-and-validate step as one function: the cleaned code when it is valid. */
  function NormalizePin(input: Option<string>): (r: Option<string>)
    ensures r.Some? <==> MinPinLength <= |CleanPin(input)| <= MaxPinLength
    ensures r.Some? ==> AllDigits(r.value) && r.value == CleanPin(input)
  {
    if IsValidPin(input) then Some(CleanPin(input)) else None
  }

  /** A non-empty input of digits only is valid exactly when its length is in [4, 8]. */
  lemma DigitsOnlyValidity(s: string)
    requires s != "" && AllDigits(s)
    ensures CleanPin(Some(s)) == s
    ensures IsValidPin(Some(s)) <==> MinPinLength <= |s| <= MaxPinLength
  {
    DigitsOfDigits(s);
  }

  /** Characters outside [0-9] inside an input are dropped. */
  lemma DropsSeparator(a: string, sep: char, b: string)
    requires AllDigits(a) && AllDigits(b) && !IsDigit(sep)
    ensures DigitsOf(a + [sep] + b) == a + b
  {
    assert DigitsOf([sep]) == "" by {
      assert [sep][1..] == "";
    }
    DigitsOfAppend(a, [sep]);
    DigitsOfDigits(a);
    assert DigitsOf(a + [sep]) == a;
    DigitsOfAppend(a + [sep], b);
    DigitsOfDigits(b);
  }

  /** The test table of the PIN checks: inputs that are digits only. */
  lemma PinExamplesDigitsOnly()
    ensures IsValidPin(Some("1234"))
    ensures IsValidPin(Some("123456"))
    ensures IsValidPin(Some("12345678"))
    ensures !IsValidPin(Some("123"))
    ensures !IsValidPin(Some("123456789"))
  {
    DigitsOnlyValidity("1234");
    DigitsOnlyValidity("123456");
    DigitsOnlyValidity("12345678");
    DigitsOnlyValidity("123");
    DigitsOnlyValidity("123456789");
  }

  /** The test table of the PIN checks: inputs with other characters, and no input. */
  lemma PinExamplesMixed()
    ensures CleanPin(Some("1234*")) == "1234" && IsValidPin(Some("1234*"))
    ensures CleanPin(Some("12#34")) == "1234" && IsValidPin(Some("12#34"))
    ensures CleanPin(Some("abcd")) == "" && !IsValidPin(Some("abcd"))
    ensures !IsValidPin(Some(""))
    ensures !IsValidPin(None)
  {
    DropsSeparator("1234", '*', "");
    assert "1234" + ['*'] + "" == "1234*";
    DropsSeparator("12", '#', "34");
    assert "12" + ['#'] + "34" == "12#34";
    assert forall c :: c in "abcd" ==> !IsDigit(c);
  }
}
