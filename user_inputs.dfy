/**
 * Strategy parameters and their validation (src/user_inputs.py).
 * The sidebar form that collects the parameters is not modelled: a run takes
 * a `Params` value as its argument.
 */
module UserInputs {

  import opened Optional

  /** The parameter dictionary built by the sidebar form. */
  datatype Params = Params(
    threshold: real,
    lookbackPeriod: int,
    initialStart: int,
    initialEnd: int,
    lotSize1: real,
    lotSize2: real,
    stopLoss: real,
    takeProfit: real)

  /** Width of the z-score window. */
  function WindowSize(p: Params): int
  {
    p.initialEnd - p.initialStart
  }

  /** The rules `validate_params` checks, one constructor per check, in source order. */
  datatype Rule =
    | EndAfterStart
    | WindowNotTooSmall
    | WindowNotTooLarge
    | EndWithinLookback
    | ThresholdNotTooSmall
    | ThresholdNotTooLarge
    | StopLossNegative
    | TakeProfitPositive

  /** The order in which the rules are checked. */
  const Rules: seq<Rule> := [
    EndAfterStart, WindowNotTooSmall, WindowNotTooLarge, EndWithinLookback,
    ThresholdNotTooSmall, ThresholdNotTooLarge, StopLossNegative, TakeProfitPositive
  ]

  /** Whether the parameters satisfy one rule. */
  predicate Holds(p: Params, rule: Rule)
  {
    match rule
    case EndAfterStart => p.initialEnd > p.initialStart
    case WindowNotTooSmall => WindowSize(p) >= 5
    case WindowNotTooLarge => WindowSize(p) <= 30
    case EndWithinLookback => p.initialEnd <= p.lookbackPeriod
    case ThresholdNotTooSmall => p.threshold >= 1.0
    case ThresholdNotTooLarge => p.threshold <= 3.0
    case StopLossNegative => p.stopLoss < 0.0
    case TakeProfitPositive => p.takeProfit > 0.0
  }

  /** Whether the parameters satisfy every rule. */
  predicate Valid(p: Params)
  {
    forall rule: Rule :: Holds(p, rule)
  }

  /** The message reported when `rule` is the rule that fails. */
  function Message(p: Params, rule: Rule): string
  {
    match rule
    case EndAfterStart => "Initial End Index must be greater than Initial Start Index"
    case WindowNotTooSmall =>
      "Z-score window size (" + IntToString(WindowSize(p)) + ") is too small, should be at least 5"
    case WindowNotTooLarge =>
      "Z-score window size (" + IntToString(WindowSize(p)) + ") is too large, should be at most 30"
    case EndWithinLookback => "Initial End Index cannot exceed Lookback Period"
    case ThresholdNotTooSmall => "Z-score threshold is too small, should be at least 1.0"
    case ThresholdNotTooLarge => "Z-score threshold is too large, should be at most 3.0"
    case StopLossNegative => "Stop Loss should be negative"
    case TakeProfitPositive => "Take Profit should be positive"
  }

  /** The first rule of `rules` that the parameters break, if any. */
  function FirstViolation(p: Params, rules: seq<Rule>): (r: Option<Rule>)
    ensures r.None? <==> forall k :: 0 <= k < |rules| ==> Holds(p, rules[k])
    ensures r.Some? ==>
      exists k :: 0 <= k < |rules| && rules[k] == r.value && !Holds(p, rules[k])
        && forall j :: 0 <= j < k ==> Holds(p, rules[j])
  {
    if rules == [] then None
    else if !Holds(p, rules[0]) then Some(rules[0])
    else
      var r := FirstViolation(p, rules[1..]);
      assert forall k :: 1 <= k < |rules| ==> rules[k] == rules[1..][k - 1];
      r
  }

  /**
   * The guard chain: `(true, "")` when every rule holds, otherwise `false`
   * with the message of the first failing check.
   */
  function ValidateParams(p: Params): (r: (bool, string))
    ensures r.0 <==> Valid(p)
    ensures r.0 ==> r.1 == ""
  {
    if p.initialEnd <= p.initialStart then
      assert !Holds(p, EndAfterStart);
      (false, "Initial End Index must be greater than Initial Start Index")
    else
      var windowSize := p.initialEnd - p.initialStart;
      if windowSize < 5 then
        assert !Holds(p, WindowNotTooSmall);
        (false, "Z-score window size (" + IntToString(windowSize) + ") is too small, should be at least 5")
      else if windowSize > 30 then
        assert !Holds(p, WindowNotTooLarge);
        (false, "Z-score window size (" + IntToString(windowSize) + ") is too large, should be at most 30")
      else if p.initialEnd > p.lookbackPeriod then
        assert !Holds(p, EndWithinLookback);
        (false, "Initial End Index cannot exceed Lookback Period")
      else if p.threshold < 1.0 then
        assert !Holds(p, ThresholdNotTooSmall);
        (false, "Z-score threshold is too small, should be at least 1.0")
      else if p.threshold > 3.0 then
        assert !Holds(p, ThresholdNotTooLarge);
        (false, "Z-score threshold is too large, should be at most 3.0")
      else if p.stopLoss >= 0.0 then
        assert !Holds(p, StopLossNegative);
        (false, "Stop Loss should be negative")
      else if p.takeProfit <= 0.0 then
        assert !Holds(p, TakeProfitPositive);
        (false, "Take Profit should be positive")
      else
        (true, "")
  }

  /**
   * Whenever the rule checked in position `k` fails and every rule checked
   * before it holds, the result is `false` with the message of that rule,
   * whatever the later rules say.
   */
  lemma FailingRuleDecides(p: Params, k: nat)
    requires k < |Rules|
    requires !Holds(p, Rules[k])
    requires forall j :: 0 <= j < k ==> Holds(p, Rules[j])
    ensures ValidateParams(p) == (false, Message(p, Rules[k]))
  {
    if k > 0 { assert Holds(p, Rules[0]); }
    if k > 1 { assert Holds(p, Rules[1]); }
    if k > 2 { assert Holds(p, Rules[2]); }
    if k > 3 { assert Holds(p, Rules[3]); }
    if k > 4 { assert Holds(p, Rules[4]); }
    if k > 5 { assert Holds(p, Rules[5]); }
    if k > 6 { assert Holds(p, Rules[6]); }
  }

  /** `ValidateParams` agrees with the reference reading: report the first rule, in check order, that fails. */
  lemma ValidateParamsReportsFirstViolation(p: Params)
    ensures ValidateParams(p) ==
      match FirstViolation(p, Rules)
      case None => (true, "")
      case Some(rule) => (false, Message(p, rule))
  {
    var v := FirstViolation(p, Rules);
    if v.Some? {
      var k :| 0 <= k < |Rules| && Rules[k] == v.value && !Holds(p, Rules[k])
        && forall j :: 0 <= j < k ==> Holds(p, Rules[j]);
      FailingRuleDecides(p, k);
    } else {
      forall rule: Rule ensures Holds(p, rule) {
        match rule
        case EndAfterStart => assert Rules[0] == rule;
        case WindowNotTooSmall => assert Rules[1] == rule;
        case WindowNotTooLarge => assert Rules[2] == rule;
        case EndWithinLookback => assert Rules[3] == rule;
        case ThresholdNotTooSmall => assert Rules[4] == rule;
        case ThresholdNotTooLarge => assert Rules[5] == rule;
        case StopLossNegative => assert Rules[6] == rule;
        case TakeProfitPositive => assert Rules[7] == rule;
      }
    }
  }

  /** Decimal digit `d` as a character. */
  function DigitChar(d: nat): (c: char)
    requires d < 10
    ensures '0' <= c <= '9' && c as int - '0' as int == d
  {
    ('0' as int + d) as char
  }

  /** The number a string of decimal digits denotes. */
  function DigitsValue(s: string): nat
    requires forall k :: 0 <= k < |s| ==> '0' <= s[k] <= '9'
  {
    if s == [] then 0
    else DigitsValue(s[..|s| - 1]) * 10 + (s[|s| - 1] as int - '0' as int)
  }

  /** Decimal rendering of a natural number, as an f-string prints it. */
  function NatToString(n: nat): (s: string)
    ensures |s| >= 1
    ensures forall k :: 0 <= k < |s| ==> '0' <= s[k] <= '9'
    decreases n
  {
    if n < 10 then [DigitChar(n)] else NatToString(n / 10) + [DigitChar(n % 10)]
  }

  /** Reading back the rendering of `n` gives `n`, and it has no leading zero. */
  lemma {:induction false} NatToStringRoundTrip(n: nat)
    ensures DigitsValue(NatToString(n)) == n
    ensures |NatToString(n)| > 1 ==> NatToString(n)[0] != '0'
    decreases n
  {
    var s := NatToString(n);
    if n >= 10 {
      NatToStringRoundTrip(n / 10);
      assert s[..|s| - 1] == NatToString(n / 10);
      assert s[0] == NatToString(n / 10)[0];
    }
  }

  /**
   * Decimal rendering of an integer: a '-' before the digits of a negative
   * number, and digits without a leading zero that read back as the number.
   */
  function IntToString(i: int): (s: string)
    ensures |s| >= 1
    ensures i >= 0 ==> (forall k :: 0 <= k < |s| ==> '0' <= s[k] <= '9') && DigitsValue(s) == i
    ensures i < 0 ==>
      && |s| >= 2 && s[0] == '-'
      && (forall k :: 1 <= k < |s| ==> '0' <= s[k] <= '9')
      && DigitsValue(s[1..]) == -i
    ensures |s| >= 2 ==> s[0] != '0'
    ensures i < 0 && |s| >= 3 ==> s[1] != '0'
  {
    if i < 0 then
      NatToStringRoundTrip(-i);
      var s := "-" + NatToString(-i);
      assert s[1..] == NatToString(-i);
      s
    else
      NatToStringRoundTrip(i);
      NatToString(i)
  }

}
