/**
 * The `Validate` class: a chainable validator that checks one field at a
 * time, records a message template per failed check under the current field
 * name, and substitutes the templates when the errors are read.
 */
module Validation {
  import opened Results
  import opened Strings
  import opened Templates
  import opened RuleSets
  import opened ErrorLogs

  /**
   * The PHP values a field may hold. Of an array only its emptiness matters
   * to the checks, so only its size is kept.
   */
  datatype Value = Null | Bool(b: bool) | Int(i: int) | Str(s: string) | Array(size: nat)

  /**
   * PHP's conversion of a scalar to a string, as `strlen`, `preg_match` and
   * `filter_var` apply it: null and false read as "", true as "1", an int as
   * its decimal text; arrays have none.
   */
  function AsString(v: Value): (r: Option<string>)
    ensures r.None? <==> v.Array?
    ensures v.Null? || v == Bool(false) ==> r == Some("")
    ensures v == Bool(true) ==> r == Some("1")
    ensures v.Int? ==> r == Some(IntToString(v.i))
    ensures v.Str? ==> r == Some(v.s)
  {
    match v
    case Null => Some("")
    case Bool(b) => Some(if b then "1" else "")
    case Int(i) => Some(IntToString(i))
    case Str(s) => Some(s)
    case Array(_) => None
  }

  /**
   * PHP's `empty()`: null, false, 0, "", "0" and the empty array. A scalar is
   * empty exactly when its string form is "" or "0".
   */
  predicate IsEmpty(v: Value)
    ensures !v.Array? ==> (IsEmpty(v) <==> AsString(v).value == "" || AsString(v).value == "0")
  {
    match v
    case Null => true
    case Bool(b) => !b
    case Int(i) => i == 0
    case Str(s) => s == "" || s == "0"
    case Array(n) => n == 0
  }

  /**
   * What `filter_var` returns for the filters whose grammar this model does
   * not spell out: the parsed int or float, or None for `false`; whether the
   * value is a boolean "true"; whether it is a valid e-mail address.
   */
  datatype Filters = Filters(
    parseInt: string -> Option<int>,
    parseFloat: string -> Option<real>,
    isTrue: string -> bool,
    isEmail: string -> bool)

  /** `!filter_var(v, FILTER_VALIDATE_INT)`: no integer, or the integer 0. */
  predicate IntFails(f: Filters, v: Value)
    ensures v.Array? ==> IntFails(f, v)
    ensures AsString(v).Some? && f.parseInt(AsString(v).value).None? ==> IntFails(f, v)
    ensures AsString(v).Some? && f.parseInt(AsString(v).value) == Some(0) ==> IntFails(f, v)
    ensures AsString(v).Some? && f.parseInt(AsString(v).value).Some? && f.parseInt(AsString(v).value).value != 0 ==> !IntFails(f, v)
  {
    AsString(v).None? || f.parseInt(AsString(v).value).None? || f.parseInt(AsString(v).value).value == 0
  }

  /** `!filter_var(v, FILTER_VALIDATE_FLOAT)`: no float, or the float 0. */
  predicate FloatFails(f: Filters, v: Value)
    ensures v.Array? ==> FloatFails(f, v)
    ensures AsString(v).Some? && f.parseFloat(AsString(v).value).None? ==> FloatFails(f, v)
    ensures AsString(v).Some? && f.parseFloat(AsString(v).value) == Some(0.0) ==> FloatFails(f, v)
    ensures AsString(v).Some? && f.parseFloat(AsString(v).value).Some? && f.parseFloat(AsString(v).value).value != 0.0 ==> !FloatFails(f, v)
  {
    AsString(v).None? || f.parseFloat(AsString(v).value).None? || f.parseFloat(AsString(v).value).value == 0.0
  }

  /** `!filter_var(v, FILTER_VALIDATE_BOOLEAN)`: anything but a "true" value fails. */
  predicate BoolFails(f: Filters, v: Value)
    ensures v.Array? ==> BoolFails(f, v)
    ensures AsString(v).Some? ==> (BoolFails(f, v) <==> !f.isTrue(AsString(v).value))
  {
    AsString(v).None? || !f.isTrue(AsString(v).value)
  }

  /** `!filter_var(v, FILTER_VALIDATE_EMAIL)`: the filter returns the address itself, falsy when "" or "0". */
  predicate EmailFails(f: Filters, v: Value)
    ensures v.Array? ==> EmailFails(f, v)
    ensures AsString(v) == Some("") || AsString(v) == Some("0") ==> EmailFails(f, v)
    ensures AsString(v).Some? && !f.isEmail(AsString(v).value) ==> EmailFails(f, v)
    ensures AsString(v).Some? && f.isEmail(AsString(v).value) && AsString(v).value != "" && AsString(v).value != "0" ==> !EmailFails(f, v)
  {
    AsString(v).None? || !f.isEmail(AsString(v).value) || AsString(v).value in {"", "0"}
  }

  /**
   * `!filter_var(v, FILTER_VALIDATE_REGEXP, ^[cls]+$)`: the filter returns the
   * matched string itself, so a value "0" fails although it matches.
   */
  predicate PatternFails(v: Value, cls: char -> bool)
    ensures v.Array? ==> PatternFails(v, cls)
    ensures AsString(v) == Some("") || AsString(v) == Some("0") ==> PatternFails(v, cls)
    ensures AsString(v).Some? && AsString(v).value != "0" && |AsString(v).value| > 0 && AllIn(AsString(v).value, cls) ==> !PatternFails(v, cls)
    ensures AsString(v).Some? && AsString(v).value != "" && !cls(AsString(v).value[0]) ==> PatternFails(v, cls)
  {
    AsString(v).None? || !FullMatch(AsString(v).value, cls) || AsString(v).value == "0"
  }

  /** `preg_match('/\s/', s)`: scans `s` for a whitespace character. */
  predicate HasWhiteSpace(s: string)
    ensures HasWhiteSpace(s) <==> exists i :: 0 <= i < |s| && IsSpace(s[i])
  {
    if s == [] then false
    else if IsSpace(s[0]) then true
    else
      assert forall i :: 0 < i < |s| ==> s[i] == s[1..][i - 1];
      HasWhiteSpace(s[1..])
  }

  /**
   * The loop of `parseErrors`: walks the fields in order and builds a new
   * array holding each field's messages substituted with `b`.
   */
  method Rebuild(log: ErrorLog, b: Bindings) returns (r: ErrorLog)
    requires log.Valid()
    ensures r == log.Parse(b)
  {
    var rebuilt: map<string, seq<string>> := map[];
    var i := 0;
    while i < |log.order|
      invariant 0 <= i <= |log.order|
      invariant forall k :: k in rebuilt <==> k in log.order[..i]
      invariant forall k :: k in rebuilt ==> k in log.lists && rebuilt[k] == SubstituteAll(log.lists[k], b)
    {
      var key := log.order[i];
      assert log.order[..i + 1] == log.order[..i] + [key];
      rebuilt := rebuilt[key := SubstituteAll(log.lists[key], b)];
      i := i + 1;
    }
    assert log.order[..i] == log.order;
    SameEntries(rebuilt, log.Parse(b).lists);
    r := ErrorLog(log.order, rebuilt);
  }

  class Validator {
    /** The current field name; an unset name reads as null, the key "". */
    var name: string
    var value: Value
    var numMin: int
    var numMax: int
    var lengthMin: int
    var lengthMax: int
    /** The message table; only the constructor sets it. */
    const responses: map<string, string>
    var errors: ErrorLog
    var parsed: bool
    /** The `filter_var` results of the PHP runtime. */
    const filters: Filters

    ghost predicate Valid()
      reads this`errors
    {
      Complete(responses) && errors.Valid()
    }

    /** What substitution uses: the current name and the bounds stored last. */
    function CurrentBindings(): Bindings
      reads this`name, this`lengthMin, this`lengthMax, this`numMin, this`numMax
    {
      Bindings(name, lengthMin, lengthMax, numMin, numMax)
    }

    /** A validator with the given (complete) responses table and nothing recorded yet. */
    constructor (responses: map<string, string>, filters: Filters)
      requires Complete(responses)
      ensures Valid()
      ensures this.responses == responses && this.filters == filters
      ensures name == "" && value == Null && errors == NoErrors && !parsed
      ensures numMin == 0 && numMax == 0 && lengthMin == 0 && lengthMax == 0
    {
      name := "";
      value := Null;
      numMin, numMax, lengthMin, lengthMax := 0, 0, 0, 0;
      this.responses := responses;
      errors := NoErrors;
      parsed := false;
      this.filters := filters;
    }

    method SetName(name: string)
      modifies this`name
      ensures this.name == name
    {
      this.name := name;
    }

    method SetValue(value: Value)
      modifies this`value
      ensures this.value == value
    {
      this.value := value;
    }

    /** Records the template `kind` under the current name. */
    method Record(kind: string)
      requires Valid() && kind in DefaultKeys
      modifies this`errors
      ensures Valid()
      ensures errors == old(errors).Append(name, responses[kind])
    {
      errors := errors.Append(name, responses[kind]);
    }

    method NotEmpty()
      requires Valid()
      modifies this`errors
      ensures Valid()
      ensures errors == if IsEmpty(value) then old(errors).Append(name, responses["empty"]) else old(errors)
    {
      if IsEmpty(value) {
        Record("empty");
      }
    }

    method NoWhiteSpace()
      requires Valid() && !value.Array?
      modifies this`errors
      ensures Valid()
      ensures errors == if HasWhiteSpace(AsString(value).value) then old(errors).Append(name, responses["whiteSpace"]) else old(errors)
    {
      if HasWhiteSpace(AsString(value).value) {
        Record("whiteSpace");
      }
    }

    /**
     * Stores the bounds, whether or not the check fails, and records the
     * `length` template when the string is shorter than `min` or longer than
     * `max`; both bounds are inclusive.
     */
    method Length(min: int, max: int)
      requires Valid() && !value.Array?
      modifies this`lengthMin, this`lengthMax, this`errors
      ensures Valid() && lengthMin == min && lengthMax == max
      ensures var n := |AsString(value).value|;
        errors == if n < min || n > max then old(errors).Append(name, responses["length"]) else old(errors)
    {
      lengthMin := min;
      lengthMax := max;
      var n := |AsString(value).value|;
      if n < lengthMin || n > lengthMax {
        Record("length");
      }
    }

    /**
     * Stores the bounds, whether or not the check fails, and records the
     * `minMax` template when the number is below `min` or above `max`; both
     * bounds are inclusive.
     */
    method MinMax(min: int, max: int)
      requires Valid() && value.Int?
      modifies this`numMin, this`numMax, this`errors
      ensures Valid() && numMin == min && numMax == max
      ensures errors == if value.i < min || value.i > max then old(errors).Append(name, responses["minMax"]) else old(errors)
    {
      numMin := min;
      numMax := max;
      if value.i < numMin || value.i > numMax {
        Record("minMax");
      }
    }

    method Int()
      requires Valid()
      modifies this`errors
      ensures Valid()
      ensures errors == if IntFails(filters, value) then old(errors).Append(name, responses["int"]) else old(errors)
    {
      if IntFails(filters, value) {
        Record("int");
      }
    }

    method Float()
      requires Valid()
      modifies this`errors
      ensures Valid()
      ensures errors == if FloatFails(filters, value) then old(errors).Append(name, responses["float"]) else old(errors)
    {
      if FloatFails(filters, value) {
        Record("float");
      }
    }

    method Alpha()
      requires Valid()
      modifies this`errors
      ensures Valid()
      ensures errors == if PatternFails(value, IsLetter) then old(errors).Append(name, responses["alpha"]) else old(errors)
    {
      if PatternFails(value, IsLetter) {
        Record("alpha");
      }
    }

    method AlphaNum()
      requires Valid()
      modifies this`errors
      ensures Valid()
      ensures errors == if PatternFails(value, IsLetterOrDigit) then old(errors).Append(name, responses["alphanum"]) else old(errors)
    {
      if PatternFails(value, IsLetterOrDigit) {
        Record("alphanum");
      }
    }

    /** Tests the same letters-and-digits class as `AlphaNum`, not a URL grammar. */
    method Url()
      requires Valid()
      modifies this`errors
      ensures Valid()
      ensures errors == if PatternFails(value, IsLetterOrDigit) then old(errors).Append(name, responses["url"]) else old(errors)
    {
      if PatternFails(value, IsLetterOrDigit) {
        Record("url");
      }
    }

    method Uri()
      requires Valid()
      modifies this`errors
      ensures Valid()
      ensures errors == if PatternFails(value, IsUriChar) then old(errors).Append(name, responses["uri"]) else old(errors)
    {
      if PatternFails(value, IsUriChar) {
        Record("uri");
      }
    }

    /** Records the `uri` template, not the `bool` one, when the value is not a "true" value. */
    method Bool()
      requires Valid()
      modifies this`errors
      ensures Valid()
      ensures errors == if BoolFails(filters, value) then old(errors).Append(name, responses["uri"]) else old(errors)
    {
      if BoolFails(filters, value) {
        Record("uri");
      }
    }

    method Email()
      requires Valid()
      modifies this`errors
      ensures Valid()
      ensures errors == if EmailFails(filters, value) then old(errors).Append(name, responses["email"]) else old(errors)
    {
      if EmailFails(filters, value) {
        Record("email");
      }
    }

    /**
     * `parseErrors`: rebuilds `errors` field by field in their order, each
     * message substituted with the current name and the last-stored bounds,
     * and marks the errors as parsed.
     */
    method ParseErrors()
      requires Valid()
      modifies this`errors, this`parsed
      ensures Valid() && parsed
      ensures errors == old(errors).Parse(CurrentBindings())
    {
      errors := Rebuild(errors, CurrentBindings());
      parsed := true;
    }

    /** `validate()`: substitutes unconditionally. */
    method Validate()
      requires Valid()
      modifies this`errors, this`parsed
      ensures Valid() && parsed
      ensures errors == old(errors).Parse(CurrentBindings())
    {
      ParseErrors();
    }

    /**
     * `getErrors()` without a callback: substitutes only the first time, then
     * returns the errors as they stand.
     */
    method GetErrors() returns (log: ErrorLog)
      requires Valid()
      modifies this`errors, this`parsed
      ensures Valid() && parsed && log == errors
      ensures errors == if old(parsed) then old(errors) else old(errors).Parse(CurrentBindings())
    {
      if !parsed {
        ParseErrors();
      }
      log := errors;
    }

    /** `failed()`: some field has a message. */
    function Failed(): (r: bool)
      reads this`errors
      requires Valid()
      ensures r <==> exists k :: k in errors.lists
    {
      errors.Failed()
    }

    /** `getFirstError()`: the first message of the first field recorded, or `''`. */
    function GetFirstError(): (r: string)
      reads this`errors
      requires Valid()
      ensures Failed() ==> r == errors.lists[errors.order[0]][0] && errors.order[0] in errors.lists
      ensures !Failed() ==> r == ""
    {
      errors.First()
    }
  }

  /**
   * `new Validate($ruleSet)`: either a fresh validator whose responses are
   * the resolved table, or the message of the exception the constructor throws.
   */
  method New(ruleSet: RuleSet, filters: Filters) returns (r: Result<Validator>)
    ensures r.Err? <==> ResolveRuleSet(ruleSet).Err?
    ensures r.Err? ==> r.error == ResolveRuleSet(ruleSet).error
    ensures r.Ok? ==> fresh(r.value) && r.value.Valid() && r.value.responses == ResolveRuleSet(ruleSet).value
    ensures r.Ok? ==> r.value.errors == NoErrors && !r.value.parsed && r.value.filters == filters
    ensures r.Ok? ==> r.value.CurrentBindings() == Bindings("", 0, 0, 0, 0) && r.value.value == Null
  {
    var responses := SetNewRuleSet(ruleSet);
    match responses
    case Err(e) => r := Err(e);
    case Ok(table) =>
      var v := new Validator(table, filters);
      r := Ok(v);
  }
}
