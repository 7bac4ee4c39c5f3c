/**
 * The terminal's output-format flag: a string-valued setting whose zero
 * value selects plain text and whose only other accepted value is "json".
 * Setting it validates first and changes the flag only when the value is
 * accepted.
 */
module Terminal {
  import opened Wrappers

  /** Plain text output, the zero value and so the flag's default. */
  const OutputFormatText: string := ""

  /** JSON output. */
  const OutputFormatJSON: string := "json"

  /** The formats listed to the user when a value is refused (the text format is the unnamed default). */
  const ListedFormats: seq<string> := [OutputFormatJSON]

  /** Whether `format` names a supported output format. */
  function IsValidOutputFormat(format: string): (r: bool)
    ensures r <==> format == OutputFormatJSON || format == OutputFormatText
  {
    match format
    case "json" => true
    case "" => true
    case _ => false
  }

  /** `parts` separated by `sep`. */
  function JoinStrings(parts: seq<string>, sep: string): (r: string)
    ensures |parts| == 1 ==> r == parts[0]
    ensures parts == [] ==> r == ""
  {
    if parts == [] then ""
    else if |parts| == 1 then parts[0]
    else parts[0] + sep + JoinStrings(parts[1..], sep)
  }

  /** The error returned for a refused value. */
  function UnsupportedMessage(): string
  {
    "unsupported value, use one of [" + JoinStrings(ListedFormats, ", ") + "] instead"
  }

  /** The message names the one listed format. */
  lemma UnsupportedMessageText()
    ensures UnsupportedMessage() == "unsupported value, use one of [json] instead"
  {
    assert JoinStrings(ListedFormats, ", ") == "json";
  }

  /** The flag value and the error after setting `val` on a flag holding `current`. */
  function SetOutcome(current: string, val: string): (string, Option<string>)
  {
    if IsValidOutputFormat(val) then (val, None) else (current, Some(UnsupportedMessage()))
  }

  /** A value is stored exactly when it is a supported format, and a refusal carries the fixed message. */
  lemma SetOutcomeSpec(current: string, val: string)
    ensures SetOutcome(current, val).1 == None <==> val == OutputFormatJSON || val == OutputFormatText
    ensures SetOutcome(current, val).1 == None ==> SetOutcome(current, val).0 == val
    ensures SetOutcome(current, val).1 != None ==> SetOutcome(current, val).0 == current
    ensures SetOutcome(current, val).1 != None
            ==> SetOutcome(current, val).1 == Some("unsupported value, use one of [json] instead")
  {
    UnsupportedMessageText();
  }

  /** Setting the same value twice changes nothing the second time. */
  lemma SetIdempotent(current: string, val: string)
    ensures SetOutcome(SetOutcome(current, val).0, val) == SetOutcome(current, val)
  {
  }

  /** A flag that holds a supported format keeps holding one, whatever it is set to. */
  lemma SetKeepsValid(current: string, val: string)
    requires IsValidOutputFormat(current)
    ensures IsValidOutputFormat(SetOutcome(current, val).0)
  {
  }

  /** The flag itself; `Set` changes it in place. */
  class OutputFormat {
    var value: string

    /** The value a flag holds is always a supported format. */
    predicate Valid()
      reads this
    {
      IsValidOutputFormat(value)
    }

    /** A new flag holds the zero value, the text format. */
    constructor()
      ensures value == OutputFormatText
      ensures Valid()
    {
      value := OutputFormatText;
    }

    /** The flag's display text is its value. */
    function String(): (s: string)
      reads this
      ensures s == value
    {
      value
    }

    /** Validates `val` and stores it; a refused value leaves the flag as it was. */
    method Set(val: string) returns (err: Option<string>)
      modifies this
      ensures (value, err) == SetOutcome(old(value), val)
      ensures old(Valid()) ==> Valid()
    {
      if !IsValidOutputFormat(val) {
        err := Some(UnsupportedMessage());
        return;
      }
      value := val;
      err := None;
    }
  }
}
