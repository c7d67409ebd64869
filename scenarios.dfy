/**
 * Runs of the validator that show how its shared state behaves: bounds and
 * the field name are read at substitution time, not when a check fails, and
 * messages recorded after the first `getErrors()` stay unsubstituted.
 */
module Scenarios {
  import opened Results
  import opened Strings
  import opened Templates
  import opened ErrorLogs
  import opened Validation

  /** Filters that accept nothing; the runs below do not consult them. */
  function RejectAll(): Filters {
    Filters(s => None, s => None, s => false, s => false)
  }

  lemma NameAndBoundsText()
    ensures UcFirst("B") == "B" && IntToString(3) == "3"
    ensures UcFirst("age") == "Age" && IntToString(18) == "18" && IntToString(65) == "65"
  {
    assert NatToString(18) == NatToString(1) + [DigitChar(8)];
    assert NatToString(65) == NatToString(6) + [DigitChar(5)];
  }

  lemma WhiteSpaceTemplate()
    ensures DefaultResponses["whiteSpace"] == "{{field}}" + " cannot contain spaces"
  {
  }

  /** Field "A" fails `length(2, 2)` on a fresh validator. */
  method FirstLengthFailure(responses: map<string, string>) returns (v: Validator)
    requires Complete(responses)
    ensures fresh(v) && v.Valid() && !v.parsed && v.responses == responses
    ensures v.numMin == 0 && v.numMax == 0
    ensures "A" in v.errors.lists && v.errors.lists["A"] == [responses["length"]]
  {
    v := new Validator(responses, RejectAll());
    v.SetName("A");
    v.SetValue(Str(""));
    v.Length(2, 2);
  }

  /** Then field "B" runs `length(3, 3)` and passes; nothing is substituted yet. */
  method TwoLengthChecks(responses: map<string, string>) returns (v: Validator)
    requires Complete(responses)
    ensures fresh(v) && v.Valid() && !v.parsed && v.responses == responses
    ensures v.CurrentBindings() == Bindings("B", 3, 3, 0, 0)
    ensures "A" in v.errors.lists && v.errors.lists["A"] == [responses["length"]]
  {
    v := FirstLengthFailure(responses);
    v.SetName("B");
    v.SetValue(Str("xyz"));
    v.Length(3, 3);
  }

  /**
   * After `validate()` the message stored under "A" names "B" and the bounds
   * 3 and 3, the ones stored last.
   */
  method SharedBoundsRun() returns (messagesOfA: seq<string>)
    ensures messagesOfA == ["B" + " must be between " + "3" + " and " + "3" + " characters long"]
  {
    DefaultComplete();
    var v := TwoLengthChecks(DefaultResponses);
    var b := v.CurrentBindings();
    v.Validate();
    messagesOfA := v.errors.lists["A"];
    assert messagesOfA == [Substitute(DefaultResponses["length"], b)];
    LengthMessage(b);
    NameAndBoundsText();
  }

  /** "age" fails `minMax(18, 65)`; nothing is substituted yet. */
  method AgeCheck(responses: map<string, string>) returns (v: Validator)
    requires Complete(responses)
    ensures fresh(v) && v.Valid() && v.responses == responses && !v.parsed
    ensures v.CurrentBindings() == Bindings("age", 0, 0, 18, 65)
    ensures v.errors.lists == map["age" := [responses["minMax"]]]
  {
    v := new Validator(responses, RejectAll());
    v.SetName("age");
    v.SetValue(Int(15));
    v.MinMax(18, 65);
  }

  /** `getErrors()` after the failure above substitutes the message of "age". */
  method AgeRun(responses: map<string, string>) returns (v: Validator, first: ErrorLog)
    requires Complete(responses)
    ensures fresh(v) && v.Valid() && v.responses == responses && v.parsed && v.errors == first
    ensures first.lists.Keys == {"age"}
    ensures first.lists["age"] == [Substitute(responses["minMax"], Bindings("age", 0, 0, 18, 65))]
  {
    v := AgeCheck(responses);
    first := v.GetErrors();
  }

  /** "zip" fails `noWhiteSpace()`: its template goes in as recorded, after the other fields. */
  method ZipFails(v: Validator)
    requires v.Valid() && "zip" !in v.errors.lists
    modifies v`name, v`value, v`errors
    ensures v.Valid() && "zip" in v.errors.lists && v.errors.lists["zip"] == [v.responses["whiteSpace"]]
    ensures forall k :: k in old(v.errors.lists) ==> k in v.errors.lists && v.errors.lists[k] == old(v.errors.lists[k])
  {
    v.SetName("zip");
    v.SetValue(Str("12 3"));
    assert HasWhiteSpace(AsString(v.value).value) by {
      assert IsSpace("12 3"[2]);
    }
    v.NoWhiteSpace();
  }

  /**
   * After the run above, "zip" fails `noWhiteSpace()`: the second
   * `getErrors()` keeps the message of "age" and returns the template of
   * "zip" as it was recorded.
   */
  method LateMessage(responses: map<string, string>) returns (first: ErrorLog, second: ErrorLog)
    requires Complete(responses)
    ensures "age" in first.lists && first.lists["age"] == [Substitute(responses["minMax"], Bindings("age", 0, 0, 18, 65))]
    ensures "age" in second.lists && second.lists["age"] == first.lists["age"]
    ensures "zip" in second.lists && second.lists["zip"] == [responses["whiteSpace"]]
  {
    var v;
    v, first := AgeRun(responses);
    ZipFails(v);
    assert v.parsed;
    second := v.GetErrors();
  }

  /** The run above with the default templates: "age" reads substituted, "zip" does not. */
  method LateMessageRun() returns (first: ErrorLog, second: ErrorLog)
    ensures "age" in first.lists && first.lists["age"] == ["Age" + " must be between " + "18" + " and " + "65"]
    ensures "age" in second.lists && second.lists["age"] == first.lists["age"]
    ensures "zip" in second.lists && second.lists["zip"] == ["{{field}}" + " cannot contain spaces"]
  {
    DefaultComplete();
    first, second := LateMessage(DefaultResponses);
    MinMaxMessage(Bindings("age", 0, 0, 18, 65));
    NameAndBoundsText();
    WhiteSpaceTemplate();
  }
}
