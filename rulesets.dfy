/**
 * Choosing the `responses` table at construction (`setNewRuleSet` in
 * Validate.php): a caller may replace the default templates with a table of
 * their own, which must cover every default key.
 */
module RuleSets {
  import opened Strings
  import opened Templates
  import opened Results

  /**
   * The constructor's argument: omitted or `null`, an array of templates, or
   * any other value, of which only its PHP truthiness matters.
   */
  datatype RuleSet = NoRuleSet | RuleTable(rules: map<string, string>) | NotTable(truthy: bool)

  /** `if($ruleSet)`: an empty array is falsy. */
  predicate Truthy(arg: RuleSet) {
    match arg
    case NoRuleSet => false
    case RuleTable(m) => |m| != 0
    case NotTable(t) => t
  }

  /** The keys of `keys` that `rules` lacks, in the order of `keys`. */
  function MissingFrom(keys: seq<string>, rules: map<string, string>): (r: seq<string>)
    ensures |r| <= |keys|
    ensures forall i :: 0 <= i < |r| ==> r[i] !in rules
  {
    if keys == [] then []
    else
      var last := keys[|keys| - 1];
      MissingFrom(keys[..|keys| - 1], rules) + (if last in rules then [] else [last])
  }

  /** A key is reported missing exactly when it is a default key the table lacks. */
  lemma {:induction false} MissingFromMembers(keys: seq<string>, rules: map<string, string>)
    ensures forall k :: k in MissingFrom(keys, rules) <==> k in keys && k !in rules
  {
    if keys != [] {
      var init := keys[..|keys| - 1];
      MissingFromMembers(init, rules);
      assert keys == init + [keys[|keys| - 1]];
    }
  }

  /** A table holding every key misses none. */
  lemma {:induction false} MissingNone(keys: seq<string>, rules: map<string, string>)
    requires forall i :: 0 <= i < |keys| ==> keys[i] in rules
    ensures MissingFrom(keys, rules) == []
  {
    if keys != [] {
      MissingNone(keys[..|keys| - 1], rules);
    }
  }

  /** Missing keys of a concatenation are those of each part, in order. */
  lemma {:induction false} MissingFromConcat(a: seq<string>, b: seq<string>, rules: map<string, string>)
    ensures MissingFrom(a + b, rules) == MissingFrom(a, rules) + MissingFrom(b, rules)
  {
    if b != [] {
      var init := b[..|b| - 1];
      assert (a + b)[..|a + b| - 1] == a + init;
      MissingFromConcat(a, init, rules);
    } else {
      assert a + b == a;
    }
  }

  /**
   * The exception message for an incomplete table: every missing key in
   * single quotes, in order, separated by `, `; a further key adds `, 'k'`
   * at the end.
   */
  function MissingMessage(missing: seq<string>): (r: string)
    ensures missing != [] ==> r == "New rule has missing keys: " + Join(Quote(missing), ", ")
    ensures |missing| == 1 ==> r == "New rule has missing keys: '" + missing[0] + "'"
  {
    var message := "New rule has missing keys: '" + Join(missing, "', '") + "'";
    if missing != [] then JoinQuoted(missing); message else message
  }

  /** One more missing key extends the message by `, 'k'`. */
  lemma MissingMessageSnoc(missing: seq<string>, k: string)
    requires missing != []
    ensures MissingMessage(missing + [k]) == MissingMessage(missing) + ", '" + k + "'"
  {
    JoinSnoc(missing, k, "', '");
  }

  const NotArrayMessage: string := "New rule set must be type of array"

  /**
   * The outcome of construction: the `responses` table the validator gets, or
   * the message of the exception it throws.
   */
  function ResolveRuleSet(arg: RuleSet): (r: Result<map<string, string>>)
    ensures r.Ok? ==> Complete(r.value)
    ensures !Truthy(arg) ==> r == Ok(DefaultResponses)
    ensures arg.NotTable? && arg.truthy ==> r == Err(NotArrayMessage)
    ensures arg.RuleTable? && Truthy(arg) ==>
      (r.Ok? <==> Complete(arg.rules)) && (r.Ok? ==> r.value == arg.rules)
    ensures arg.RuleTable? && Truthy(arg) && r.Err? ==> r.error == MissingMessage(MissingFrom(DefaultKeys, arg.rules))
  {
    MissingFromMembers(DefaultKeys, if arg.RuleTable? then arg.rules else map[]);
    match arg
    case NoRuleSet => Ok(DefaultResponses)
    case NotTable(t) => if t then Err(NotArrayMessage) else Ok(DefaultResponses)
    case RuleTable(m) =>
      if |m| == 0 then Ok(DefaultResponses)
      else
        var missing := MissingFrom(DefaultKeys, m);
        if |missing| != 0 then
          assert missing[0] in missing;
          Err(MissingMessage(missing))
        else Ok(m)
  }

  /**
   * The loop of `setNewRuleSet`: walks `keys` in order and collects those
   * `rules` lacks.
   */
  method CollectMissing(keys: seq<string>, rules: map<string, string>) returns (missing: seq<string>)
    ensures missing == MissingFrom(keys, rules)
  {
    missing := [];
    for i := 0 to |keys|
      invariant missing == MissingFrom(keys[..i], rules)
    {
      assert keys[..i + 1][..i] == keys[..i];
      if keys[i] !in rules {
        missing := missing + [keys[i]];
      }
    }
    assert keys[..|keys|] == keys;
  }

  /**
   * `setNewRuleSet`: walks the default keys in order, collecting those the
   * caller's table lacks, then either throws or takes the table as it is.
   */
  method SetNewRuleSet(arg: RuleSet) returns (r: Result<map<string, string>>)
    ensures r == ResolveRuleSet(arg)
  {
    r := Ok(DefaultResponses);
    if Truthy(arg) {
      if arg.RuleTable? {
        var missing := CollectMissing(DefaultKeys, arg.rules);
        if |missing| != 0 {
          return Err(MissingMessage(missing));
        }
        r := Ok(arg.rules);
      } else {
        r := Err(NotArrayMessage);
      }
    }
  }

  /** Of the default table without `int`, only `int` is reported missing. */
  lemma MissingOnlyInt()
    ensures MissingFrom(DefaultKeys, DefaultResponses - {"int"}) == ["int"]
  {
    var rules := DefaultResponses - {"int"};
    var before := ["empty", "badFormat", "length", "minMax"];
    var after := ["float", "alpha", "alphanum", "whiteSpace", "url", "uri", "bool", "email"];
    assert DefaultKeys == before + ["int"] + after;
    assert "url"[0] != "int"[0] && "uri"[0] != "int"[0];
    MissingNone(before, rules);
    MissingNone(after, rules);
    assert MissingFrom(["int"], rules) == ["int"] by {
      assert ["int"][..0] == [];
    }
    MissingFromConcat(before, ["int"], rules);
    MissingFromConcat(before + ["int"], after, rules);
  }

  /** A table without `int` is refused with a message naming exactly `int`. */
  lemma MissingIntRefused()
    ensures ResolveRuleSet(RuleTable(DefaultResponses - {"int"})) == Err("New rule has missing keys: '" + "int" + "'")
  {
    MissingOnlyInt();
    assert "empty" in DefaultResponses - {"int"};
    assert Join(["int"], "', '") == "int";
  }
}
