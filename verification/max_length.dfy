/**
 * The `maxLength` form validator: a factory taking a maximum length and an
 * error message, each with a default, that returns a check on a field value.
 */
module MaxLength {
  import opened Common
  import opened Strings

  const ErrorMessage := "Maximum string length of this field is: "
  const DefaultMaxValue := 60

  /** A validator made by the factory: the limit and message it closes over. */
  datatype Rule = Rule(limit: int, message: string)

  /** `maxLength(maxLengthValue, errorMessage)`: a missing argument takes its default. */
  function MakeRule(maxLengthValue: Option<int>, errorMessage: Option<string>): (rule: Rule)
    ensures rule.limit == if maxLengthValue.Some? then maxLengthValue.value else DefaultMaxValue
    ensures rule.message == if errorMessage.Some? then errorMessage.value else ErrorMessage
  {
    Rule(
      if maxLengthValue.Some? then maxLengthValue.value else DefaultMaxValue,
      if errorMessage.Some? then errorMessage.value else ErrorMessage)
  }

  /**
   * The message shown for a too long value: the message (an empty one falls
   * back to the default one), a space and the limit.
   */
  function Complaint(rule: Rule): (c: string)
    ensures StartsWith(c, if rule.message == "" then ErrorMessage else rule.message)
    ensures EndsWith(c, " " + IntToString(rule.limit))
    ensures |c| == |if rule.message == "" then ErrorMessage else rule.message| + 1 + |IntToString(rule.limit)|
  {
    var message := if rule.message == "" then ErrorMessage else rule.message;
    var c := message + " " + IntToString(rule.limit);
    assert c[..|message|] == message;
    assert c[|c| - |" " + IntToString(rule.limit)|..] == " " + IntToString(rule.limit);
    c
  }

  /**
   * JavaScript's `length` of `s`: the number of UTF-16 code units, in which
   * a character above U+FFFF takes two (a surrogate pair).
   */
  function Utf16Length(s: string): (n: nat)
    ensures |s| <= n <= 2 * |s|
    ensures (forall i :: 0 <= i < |s| ==> s[i] as int <= 0xFFFF) ==> n == |s|
    ensures (forall i :: 0 <= i < |s| ==> s[i] as int > 0xFFFF) ==> n == 2 * |s|
  {
    if s == [] then 0
    else Utf16Length(s[..|s| - 1]) + (if s[|s| - 1] as int > 0xFFFF then 2 else 1)
  }

  /**
   * Applies the validator to a field value (`None` is `undefined`):
   * `None` when the value is accepted, otherwise the error message.
   */
  function Check(rule: Rule, value: Option<string>): (err: Option<string>)
    ensures err.None? <==> value.None? || value.value == "" || Utf16Length(value.value) <= rule.limit
    ensures err.Some? ==> err.value == Complaint(rule)
  {
    if value.Some? && value.value != "" then
      if Utf16Length(value.value) <= rule.limit then None else Some(Complaint(rule))
    else
      None
  }

  /** A value accepted under some limit is accepted under every larger limit. */
  lemma CheckMonotone(rule: Rule, larger: int, value: Option<string>)
    requires rule.limit <= larger
    requires Check(rule, value).None?
    ensures Check(Rule(larger, rule.message), value).None?
  {
  }

  /** The error message ends in the decimal notation of the limit, which reads back as the limit. */
  lemma ComplaintNamesLimit(rule: Rule)
    requires rule.limit >= 0
    ensures var err := Complaint(rule);
      var digits := NatToString(rule.limit);
      && EndsWith(err, digits)
      && ParseNat(err[|err| - |digits|..]) == rule.limit
  {
    var err := Complaint(rule);
    var digits := NatToString(rule.limit);
    assert err[|err| - |digits|..] == digits;
    ParseNatToString(rule.limit);
  }

  /** With both defaults, a 61-character value is refused with the default message and 60. */
  lemma DefaultRule(value: string)
    requires |value| == 61
    ensures Check(MakeRule(None, None), Some(value)) == Some("Maximum string length of this field is:  60")
  {
    assert NatToString(6) == "6";
    assert NatToString(60) == "60";
    assert Complaint(Rule(60, ErrorMessage)) == ErrorMessage + " " + "60";
    assert ErrorMessage + " " + "60" == "Maximum string length of this field is:  60";
    assert value != "";
  }

  /**
   * With the default limit of 60, 31 characters above U+FFFF are refused:
   * they take 62 UTF-16 code units.
   */
  lemma AstralCharactersCountTwice(value: string)
    requires |value| == 31
    requires forall i :: 0 <= i < |value| ==> value[i] as int > 0xFFFF
    ensures Utf16Length(value) == 62
    ensures Check(MakeRule(None, None), Some(value)).Some?
  {
  }

  /** A value within the limit in characters can still be refused for its length in code units. */
  lemma CodeUnitsNotCharacters()
    ensures var value := seq(31, _ => '\U{1F600}');
      |value| <= DefaultMaxValue && Check(MakeRule(None, None), Some(value)).Some?
  {
    var value := seq(31, _ => '\U{1F600}');
    AstralCharactersCountTwice(value);
  }
}
