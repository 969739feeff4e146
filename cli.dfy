/** The delay option as the command line gives it: a string of whole seconds. */
module Cli {
  import opened Wrappers
  import opened Strings
  import Watcher

  /** One more than the largest `u64`. */
  const U64Limit: nat := 0x1_0000_0000_0000_0000

  /** The default of the delay option. */
  const DefaultDelay: string := "0"

  /**
   * `str::parse::<u64>`: an optional leading `+`, then one or more decimal
   * digits (leading zeros allowed) whose value fits in 64 bits.
   */
  function ParseU64(s: string): (r: Option<nat>)
    ensures r.Some? ==> s != "" && r.value < U64Limit
    ensures s != "" && AllDigits(s) ==> r == (if DigitsValue(s) < U64Limit then Some(DigitsValue(s)) else None)
  {
    var digits := if |s| > 0 && s[0] == '+' then s[1..] else s;
    if |digits| == 0 || !AllDigits(digits) then None
    else if DigitsValue(digits) < U64Limit then Some(DigitsValue(digits))
    else None
  }

  /** The configured delay in seconds: none for the empty string or a string that is not a `u64`. */
  function ReadDelay(delay: string): (r: Option<nat>)
    ensures delay == "" ==> r.None?
    ensures r.Some? ==> r.value < U64Limit
    ensures r.Some? ==> forall i :: 0 <= i < |delay| ==> IsDigit(delay[i]) || (i == 0 && delay[i] == '+')
  {
    if delay == "" then None else ParseU64(delay)
  }

  /** Every number that fits in 64 bits reads back from its decimal text, with or without a `+`. */
  lemma ReadDelayOfNumber(n: nat)
    requires n < U64Limit
    ensures ReadDelay(Decimal(n)) == Some(n)
    ensures ReadDelay("+" + Decimal(n)) == Some(n)
  {
    DecimalValue(n);
    assert ("+" + Decimal(n))[1..] == Decimal(n);
  }

  /**
   * Any non-empty string of digits, leading zeros allowed, with or without a
   * `+`, reads as the number it denotes when that fits in 64 bits and as no
   * delay otherwise.
   */
  lemma ReadDelayOfDigits(s: string)
    requires s != "" && AllDigits(s)
    ensures DigitsValue(s) < U64Limit ==> ReadDelay(s) == Some(DigitsValue(s)) && ReadDelay("+" + s) == Some(DigitsValue(s))
    ensures DigitsValue(s) >= U64Limit ==> ReadDelay(s) == None && ReadDelay("+" + s) == None
  {
    assert ("+" + s)[1..] == s;
  }

  /** A leading zero changes nothing: the same delay, or none, either way. */
  lemma LeadingZeroIgnored(s: string)
    requires s != "" && AllDigits(s)
    ensures ReadDelay("0" + s) == ReadDelay(s)
  {
    LeadingZero(s);
    ReadDelayOfDigits(s);
    ReadDelayOfDigits("0" + s);
  }

  /** Leading zeros are accepted, with and without a `+`. */
  lemma LeadingZeroDelays()
    ensures ReadDelay("007") == Some(7)
    ensures ReadDelay("+00") == Some(0)
  {
    assert "007"[..2] == "00" && "00"[..1] == "0" && "0"[..0] == "";
    assert DigitsValue("0") == 0 && DigitsValue("00") == 0 && DigitsValue("007") == 7;
    assert ("+00")[1..] == "00";
  }

  /** A number too large for 64 bits gives no delay. */
  lemma ReadDelayOverflows(n: nat)
    requires n >= U64Limit
    ensures ReadDelay(Decimal(n)) == None
    ensures ReadDelay("0" + Decimal(n)) == None
  {
    DecimalValue(n);
    LeadingZeroIgnored(Decimal(n));
  }

  /** Any character other than a digit, except one leading `+`, gives no delay: signs, spaces, letters. */
  lemma ReadDelayRejects(s: string, i: nat)
    requires i < |s| && !IsDigit(s[i]) && !(i == 0 && s[0] == '+')
    ensures ReadDelay(s) == None
  {
    if s[0] == '+' {
      assert s[1..][i - 1] == s[i];
    }
  }

  /**
   * The empty string gives no delay, while the default "0" gives a delay of
   * zero seconds, so a restart then includes a zero-second sleep.
   */
  lemma DelayDefaults()
    ensures ReadDelay("") == None
    ensures ReadDelay(DefaultDelay) == Some(0)
    ensures Watcher.RestartSequence(ReadDelay(DefaultDelay)) == [Watcher.Clear, Watcher.Sleep(0), Watcher.Start]
    ensures Watcher.RestartSequence(ReadDelay("")) == [Watcher.Clear, Watcher.Start]
  {
    assert DigitsValue("0") == 0;
  }

  /** A negative number or a padded number is refused. */
  lemma ReadDelayExamples()
    ensures ReadDelay("-1") == None
    ensures ReadDelay(" 5") == None && ReadDelay("5 ") == None
    ensures ReadDelay("+") == None
  {
    ReadDelayRejects("-1", 0);
    ReadDelayRejects(" 5", 0);
    ReadDelayRejects("5 ", 1);
  }
}
