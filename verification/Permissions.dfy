/** The permission string of a mount request, read as an unsigned decimal of 32 bits. */
module Permissions {
  import opened Wrappers
  import opened Fetching

  predicate AllDigits(s: string) {
    forall i :: 0 <= i < |s| ==> '0' <= s[i] <= '9'
  }

  /** The number a string of digits denotes. */
  function DecimalValue(s: string): nat
    requires AllDigits(s)
  {
    if s == "" then 0 else 10 * DecimalValue(s[..|s| - 1]) + (s[|s| - 1] as nat - '0' as nat)
  }

  function Digit(d: nat): char
    requires d < 10
  {
    "0123456789"[d]
  }

  /** The decimal digits of a number, without leading zeros. */
  function ToDecimal(n: nat): string {
    if n < 10 then [Digit(n)] else ToDecimal(n / 10) + [Digit(n % 10)]
  }

  lemma DigitIsDigit(d: nat)
    requires d < 10
    ensures '0' <= Digit(d) <= '9' && Digit(d) as nat - '0' as nat == d
  {
  }

  lemma OneMoreDigit(s: string, c: char)
    requires AllDigits(s) && '0' <= c <= '9'
    ensures AllDigits(s + [c]) && DecimalValue(s + [c]) == 10 * DecimalValue(s) + (c as nat - '0' as nat)
  {
    assert (s + [c])[..|s|] == s;
  }

  lemma EmptyIsZero()
    ensures AllDigits("") && DecimalValue("") == 0
  {
  }

  /** The digits of a number are read back as that number. */
  lemma {:induction false} DecimalRoundTrip(n: nat)
    ensures ToDecimal(n) != "" && AllDigits(ToDecimal(n)) && DecimalValue(ToDecimal(n)) == n
  {
    hide Digit, DecimalValue, AllDigits;
    if n < 10 {
      EmptyIsZero();
      DigitIsDigit(n);
      OneMoreDigit("", Digit(n));
      assert "" + [Digit(n)] == [Digit(n)];
    } else {
      DecimalRoundTrip(n / 10);
      DigitIsDigit(n % 10);
      OneMoreDigit(ToDecimal(n / 10), Digit(n % 10));
    }
  }

  lemma {:induction false} ValueIsPositive(s: string)
    requires s != "" && AllDigits(s) && s[0] != '0'
    ensures DecimalValue(s) > 0
  {
    if |s| == 1 {
      assert s[..0] == "";
    } else {
      ValueIsPositive(s[..|s| - 1]);
    }
  }

  /** Leading zeros change nothing. */
  lemma {:induction false} LeadingZero(s: string)
    requires AllDigits(s)
    ensures AllDigits("0" + s) && DecimalValue("0" + s) == DecimalValue(s)
  {
    if s == "" {
      assert ("0" + s)[..0] == "";
    } else {
      var init := s[..|s| - 1];
      LeadingZero(init);
      assert ("0" + s)[..|s|] == "0" + init;
    }
  }

  lemma DecimalStep(n: nat, c: char)
    requires n > 0 && '0' <= c <= '9'
    ensures ToDecimal(10 * n + (c as nat - '0' as nat)) == ToDecimal(n) + [c]
  {
    var d := c as nat - '0' as nat;
    assert Digit(d) == c;
    assert (10 * n + d) / 10 == n && (10 * n + d) % 10 == d;
  }

  /** Digits that do not start with a superfluous zero are those of the number they denote. */
  lemma {:induction false} DigitsOfValue(s: string)
    requires s != "" && AllDigits(s) && (|s| == 1 || s[0] != '0')
    ensures ToDecimal(DecimalValue(s)) == s
  {
    var init, last := s[..|s| - 1], s[|s| - 1];
    assert s == init + [last];
    if init == "" {
    } else {
      assert AllDigits(init) && '0' <= last <= '9';
      hide DecimalValue, AllDigits, ToDecimal;
      DigitsOfValue(init);
      ValueIsPositive(init);
      OneMoreDigit(init, last);
      DecimalStep(DecimalValue(init), last);
    }
  }

  const LIMIT: nat := 0x1_0000_0000

  /** Base 10, 32 bits: digits only, at least one, and no value past the limit. */
  ghost function ParseUint32(s: string): Option<uint32> {
    if s != "" && AllDigits(s) && DecimalValue(s) < LIMIT then Some(DecimalValue(s) as uint32) else None
  }

  lemma {:induction false} PrefixBound(s: string, k: nat)
    requires k <= |s| && AllDigits(s)
    ensures DecimalValue(s[..k]) <= DecimalValue(s)
    decreases |s| - k
  {
    if k < |s| {
      assert s[..k + 1][..k] == s[..k];
      PrefixBound(s, k + 1);
    } else {
      assert s[..k] == s;
    }
  }

  /** Reading digit by digit, giving up at the first bad byte or excess. */
  method ReadPermission(s: string) returns (value: Option<uint32>)
    ensures value == ParseUint32(s)
    ensures value.Some? ==> s != "" && forall i :: 0 <= i < |s| ==> s[i] in "0123456789"
    ensures forall n: nat :: s == ToDecimal(n) ==> value == if n < 0x1_0000_0000 then Some(n as uint32) else None
  {
    forall n: nat | s == ToDecimal(n)
      ensures s != "" && AllDigits(s) && DecimalValue(s) == n
    {
      DecimalRoundTrip(n);
    }
    if s == "" {
      return None;
    }
    var total: nat := 0;
    for k := 0 to |s|
      invariant AllDigits(s[..k]) && total == DecimalValue(s[..k]) && total < LIMIT
    {
      if s[k] < '0' || '9' < s[k] {
        return None;
      }
      assert s[..k + 1][..k] == s[..k];
      total := 10 * total + (s[k] as nat - '0' as nat);
      if total >= LIMIT {
        if AllDigits(s) {
          PrefixBound(s, k + 1);
        }
        return None;
      }
    }
    assert s[..|s|] == s;
    value := Some(total as uint32);
  }
}
