# Validate, modelled in Dafny

A model of the PHP class `Validate` (Validate.php), a chainable form-field
validator. The caller names a field (`setName`), gives it a value
(`setValue`) and runs checks on it (`notEmpty`, `noWhiteSpace`, `length`,
`minMax`, `int`, `float`, `alpha`, `alphanum`, `url`, `uri`, `bool`,
`email`). A failed check appends the raw message template of its kind to
the list stored under the current field name. `validate()` and
`getErrors()` then replace the placeholders `{{field}}`, `{{lenMin}}`,
`{{lenMax}}`, `{{numMin}}` and `{{numMax}}` in every stored message with
`str_replace`. The values come from the validator's state at that moment:
the current name (first letter upper-cased) and the bounds of the last
`length` and `minMax` calls, whichever field they belonged to.
`failed()` and `getFirstError()` read the stored messages. The constructor
may replace the default message table with a caller's table, which must
hold every default key.

Modules, one per concern:

- `Results` (results.dfy): `Option` and `Result`.
- `Strings` (strings.dfy): `str_replace` with one search string,
  `ucfirst`, integer-to-string conversion, `implode`, and the character
  classes of the check patterns.
- `Templates` (templates.dfy): the placeholders, the five substitution
  passes, the default table, and the theorem that substitution fills every
  placeholder. The default templates are also written as `Template`
  values (literal texts and placeholders) so that the theorem applies to
  them.
- `RuleSets` (rulesets.dfy): `setNewRuleSet`, the loop that collects
  missing keys, and its exception messages.
- `ErrorLogs` (errorlog.dfy): the ordered `errors` array as a value, with
  appending, counting, the first error and substitution.
- `Validation` (validate.dfy): the class `Validator`, whose methods update
  the name, value, bounds, errors and parsed flag in place, and `New`, the
  constructor with its exceptions.
- `Scenarios` (scenarios.dfy): concrete runs showing the shared state at
  work.

Two behaviours of the source are kept as written, because the class
behaves that way:

- `bool()` records the `uri` template, not the `bool` one.
- `url()` tests the same letters-and-digits pattern as `alphanum()`.

Substitution is not memoised by `validate()`: it substitutes again every
time. `ErrorLogs.ParseTwice` proves that a second substitution changes
nothing when the messages come from the default table and the field name
holds no `{`.

## Model

| member | source | states |
|---|---|---|
| Strings.Replace | Validate.php:284-288 | `str_replace` with one search string: every character of the result comes from the message or the replacement text |
| Templates.SubstituteAll | Validate.php:283-289 | substituting a list of messages keeps its length and substitutes each message in place |
| Templates.SubstituteClean | Validate.php:283-289 | a message without `{` (so without any placeholder) is left unchanged by the five passes |
| Strings.IntToString | Validate.php:285-288 | PHP's int-to-string conversion used when a bound replaces a placeholder: never empty, every character is '-' or a digit, and "0" exactly for 0 (where the '-' stands is fixed by `Strings.IntToStringSpells`) |
| Strings.NatToStringSpells | Validate.php:285-288 | the digits of a natural number, read left to right (`Strings.DecimalValue`), have the number's value, and only "0" itself starts with '0' |
| Strings.IntToStringSpells | Validate.php:285-288 | the text that replaces a bound placeholder is the decimal text of the bound n: for n >= 0 it is digits only, with value n and no leading '0' unless it is "0"; for n < 0 it is '-' followed by digits only, with value -n and no leading '0' |
| Strings.UcFirst | Validate.php:284 | `ucfirst`: same length, everything after the first character unchanged; a lower-case ASCII first letter becomes its capital, any other first character stays |
| Templates.Substitute | Validate.php:284-288 | the five `str_replace` passes in the order of the source; every character of the result comes from the message, the field name (first letter upper-cased) or the decimal text of a bound |
| Templates.PassFills | Validate.php:284-288 | one `str_replace` pass fills exactly the placeholder it searches for and leaves the others intact, provided the template's literal texts, the values already filled in and the new value hold no `{` |
| Templates.SubstituteFills | Validate.php:283-289 | provided the template's literal texts and the field name hold no `{`: the five passes turn the template into the template with every placeholder filled (first letter of the name upper-cased, bounds as decimal text), and no `{` remains |
| Templates.DefaultComplete | Validate.php:29-43 | the default table holds a template under every default key |
| Templates.DefaultAgrees | Validate.php:29-43 | each default template, read as literal texts and placeholders, spells the table's entry |
| Templates.DefaultSubstitution | Validate.php:283-289 | substituting any default template with a name without `{` fills every placeholder and leaves no placeholder behind |
| Templates.LengthMessage | Validate.php:284-286 | provided the field name holds no `{`: the substituted `length` message reads: current name, " must be between ", last-stored lenMin, " and ", last-stored lenMax, " characters long" |
| Templates.MinMaxMessage | Validate.php:284-288 | provided the field name holds no `{`: the substituted `minMax` message reads: current name, " must be between ", last-stored numMin, " and ", last-stored numMax |
| RuleSets.MissingFrom | Validate.php:321-326 | the keys the caller's table lacks, collected as the source's `foreach` does: no longer than the key list, and none of them is in the table |
| Strings.JoinSnoc | Validate.php:329 | `implode`: joining one more string adds the separator and that string at the end |
| Strings.JoinQuoted | Validate.php:329 | `"'" . implode("', '", $keys) . "'"` is the keys each in single quotes, joined with ", " |
| RuleSets.MissingMessage | Validate.php:328-330 | the exception message for any non-empty list of missing keys: "New rule has missing keys: " then every key in single quotes, in order, separated by ", "; one key reads "New rule has missing keys: 'k'" |
| RuleSets.MissingMessageSnoc | Validate.php:328-330 | one more missing key extends the message by ", 'k'" at the end |
| RuleSets.MissingFromMembers | Validate.php:321-326 | a key is reported missing exactly when it is a default key that the caller's table lacks (both directions) |
| RuleSets.MissingFromConcat | Validate.php:321-326 | the missing keys of a concatenation are those of each part, in order |
| RuleSets.ResolveRuleSet | Validate.php:317-340 | a falsy argument keeps the default table; a truthy non-array throws "New rule set must be type of array"; a non-empty array is taken as it is exactly when it is complete, otherwise the exception lists the missing keys; a table obtained is always complete |
| RuleSets.CollectMissing | Validate.php:321-326 | the loop collects the keys the table lacks, in the order of the default keys |
| RuleSets.SetNewRuleSet | Validate.php:317-340 | the imperative walk yields the table or exception that `ResolveRuleSet` specifies |
| RuleSets.MissingOnlyInt | Validate.php:321-326 | for the default table without `int`, exactly `int` is reported missing |
| RuleSets.MissingIntRefused | Validate.php:328-330 | that table is refused with the message "New rule has missing keys: 'int'" |
| ErrorLogs.ErrorLog.Append | Validate.php:100 | `$this->errors[$name][] = $msg`: the message goes to the end of the field's list, a new field goes after all others, other lists are unchanged, and the log stays well-formed |
| ErrorLogs.ErrorLog.Failed | Validate.php:312-315 | `count($this->errors) != 0` holds exactly when some field has been recorded, and then that field has a message |
| ErrorLogs.ErrorLog.Parse | Validate.php:278-296 | the rebuilt array keeps the fields, their order and each list's length, and each message is substituted with the same bindings, whatever field it belongs to |
| ErrorLogs.AppendAddsOne | Validate.php:100 | every failed check adds exactly one message to the total |
| ErrorLogs.AppendFirst | Validate.php:342-348 | a recorded message never changes the first error, except on an empty log, where it becomes the first error |
| ErrorLogs.ParseFirst | Validate.php:342-348 | after substitution the first error is the substituted former first error, or `''` when nothing failed |
| ErrorLogs.ParseClean | Validate.php:278-296 | substitution leaves a log whose messages hold no `{` unchanged |
| ErrorLogs.ParseTwice | Validate.php:273-276 | once messages from the default table are substituted with a name without `{`, substituting again, with any name and bounds, changes nothing |
| Validation.Rebuild | Validate.php:282-292 | the `foreach` of `parseErrors` builds exactly the substituted log |
| Validation.AsString | Validate.php:132 | PHP's scalar-to-string conversion applied by `strlen`, `preg_match` and `filter_var` (also lines 112 and 161-220): null and false read as "", true as "1", an int as its decimal text, a string as itself; exactly arrays have no text |
| Validation.IsEmpty | Validate.php:99 | PHP `empty()`: null, false, 0, "", "0" and the empty array; a scalar is empty exactly when its string form is "" or "0" |
| Validation.HasWhiteSpace | Validate.php:112 | `preg_match('/\s/', ...)` as a scan: true exactly when some character is one of PCRE's six ASCII whitespace characters (`Strings.IsSpace`) |
| Validation.IntFails | Validate.php:161 | `!filter_var(v, FILTER_VALIDATE_INT)`: an array fails, a scalar the filter rejects fails, a value read as 0 fails although valid, any other integer passes |
| Validation.FloatFails | Validate.php:169 | `!filter_var(v, FILTER_VALIDATE_FLOAT)`: an array fails, a scalar the filter rejects fails, a value read as 0.0 fails although valid, any other float passes |
| Validation.BoolFails | Validate.php:212 | `!filter_var(v, FILTER_VALIDATE_BOOLEAN)`: an array fails; a scalar fails exactly when the filter does not read it as true |
| Validation.EmailFails | Validate.php:220 | `!filter_var(v, FILTER_VALIDATE_EMAIL)`: the filter returns the address, so an array, a rejected address, "" and "0" fail and any other accepted address passes |
| Validation.PatternFails | Validate.php:176-207 | `!filter_var(v, FILTER_VALIDATE_REGEXP, ^[cls]+$)`: the filter returns the matched string, so arrays, "" and "0" always fail, a text starting outside the class fails, and a non-empty text of class characters other than "0" passes |
| Strings.ClassRun | Validate.php:178 | the longest prefix of class characters: every character in it is in the class and the next one is not |
| Strings.FullMatchGreedy | Validate.php:178 | `^[cls]+$` (`Strings.FullMatch`) holds exactly when the longest class run is non-empty and is followed by the end of the text or by one final newline, which PCRE's `$` accepts |
| Validation.Validator.constructor | Validate.php:46-49 | a new validator has the given complete table, no errors, not parsed, bounds 0 and an unset (empty) name |
| Validation.Validator.SetName | Validate.php:74-78 | only the name changes, to the argument |
| Validation.Validator.SetValue | Validate.php:86-90 | only the value changes, to the argument |
| Validation.Validator.Record | Validate.php:100 | the template of the kind is appended under the current name |
| Validation.Validator.NotEmpty | Validate.php:97-103 | appends the `empty` template exactly when the value is PHP-empty (null, false, 0, "", "0", empty array); only `errors` may change |
| Validation.Validator.NoWhiteSpace | Validate.php:110-116 | appends the `whiteSpace` template exactly when the value's text holds a whitespace character; only `errors` may change |
| Validation.Validator.Length | Validate.php:127-137 | always stores both length bounds; appends the `length` template exactly when the string length is below min or above max (the bounds are inclusive) |
| Validation.Validator.MinMax | Validate.php:147-157 | always stores both numeric bounds; appends the `minMax` template exactly when the number is below min or above max (the bounds are inclusive) |
| Validation.Validator.Int | Validate.php:159-165 | appends the `int` template exactly when the integer filter fails or yields 0 |
| Validation.Validator.Float | Validate.php:167-174 | appends the `float` template exactly when the float filter fails or yields 0 |
| Validation.Validator.Alpha | Validate.php:176-183 | appends the `alpha` template exactly when `PatternFails` with `[a-zA-Z]`: the value is an array, is "0", or is not a non-empty run of ASCII letters optionally followed by one final newline |
| Validation.Validator.AlphaNum | Validate.php:185-192 | appends the `alphanum` template exactly when `PatternFails` with `[a-zA-Z0-9]`: the value is an array, is "0", or is not a non-empty run of ASCII letters and digits optionally followed by one final newline |
| Validation.Validator.Url | Validate.php:194-200 | tests the same class as `AlphaNum` and appends the `url` template when it fails |
| Validation.Validator.Uri | Validate.php:202-208 | appends the `uri` template exactly when `PatternFails` with `[A-Za-z0-9-\/_]`: the value is an array, is "0", or is not a non-empty run of letters, digits, `-`, `/` and `_` optionally followed by one final newline |
| Validation.Validator.Bool | Validate.php:210-216 | appends the `uri` template (not `bool`) exactly when the value is not a boolean "true" value |
| Validation.Validator.Email | Validate.php:218-224 | appends the `email` template exactly when the e-mail filter rejects the value or returns a falsy address |
| Validation.Validator.ParseErrors | Validate.php:278-296 | the errors become their substitution with the current name and the last-stored bounds, and are marked parsed |
| Validation.Validator.Validate | Validate.php:273-276 | substitutes unconditionally, even when already parsed |
| Validation.Validator.GetErrors | Validate.php:298-309 | substitutes only when not yet parsed, then returns the errors as they stand |
| Validation.Validator.Failed | Validate.php:312-315 | true exactly when some field has a message |
| Validation.Validator.GetFirstError | Validate.php:342-348 | the first message of the first field recorded, or `''` when nothing failed |
| Validation.New | Validate.php:46-49 | construction throws exactly when the rule set is refused, with its message; otherwise the validator holds the resolved table, no errors, not parsed, name "" and value null, and all four bounds start at 0 (lines 16-19) |
| Scenarios.FirstLengthFailure | Validate.php:127-137 | field "A" failing `length(2, 2)` stores the raw `length` template under "A" |
| Scenarios.TwoLengthChecks | Validate.php:127-137 | a later passing `length(3, 3)` on field "B" still overwrites the stored bounds and name |
| Scenarios.SharedBoundsRun | Validate.php:284-286 | after `validate()` the message stored under "A" reads "B must be between 3 and 3 characters long" |
| Scenarios.AgeCheck | Validate.php:147-157 | "age" failing `minMax(18, 65)` stores the raw `minMax` template and the bounds |
| Scenarios.AgeRun | Validate.php:298-309 | the first `getErrors()` substitutes the message of "age" |
| Scenarios.ZipFails | Validate.php:110-116 | "zip" failing `noWhiteSpace()` records the raw template and keeps every earlier field's list |
| Scenarios.LateMessage | Validate.php:298-309 | a second `getErrors()` does not substitute again, so a message recorded after the first one is returned raw |
| Scenarios.LateMessageRun | Validate.php:298-309 | with the default table: "age" reads "Age must be between 18 and 65" while "zip" still reads "{{field}} cannot contain spaces" |

## Left out

- `customPattern` and the private `pattern` helper, with the public `patterns` table: their regular expressions use Unicode classes (`\p{L}`), and PCRE is not modelled.
- The callback of `getErrors($callback)`: a call into caller code; only the no-callback path is modelled.
- `__get` and `__set`, and direct assignment to the public `responses` and `patterns` fields: the model's table is fixed at construction.
- The grammars of `filter_var` with `FILTER_VALIDATE_INT`, `FILTER_VALIDATE_FLOAT`, `FILTER_VALIDATE_BOOLEAN` and `FILTER_VALIDATE_EMAIL`: they are parameters of the validator (`Validation.Filters`). The model fixes only how their results are read (a result of 0, "" or "0" is falsy).
- The regular-expression engine: the patterns of `alpha`, `alphanum`, `url` and `uri` are modelled as full matches over ASCII character classes.
- Float values of fields and bounds: values are null, booleans, integers, strings or arrays, and bounds are integers.
- PHP's loose comparisons of mixed types: `length` and `noWhiteSpace` require a non-array value, because PHP 8 raises a `TypeError` there, and `minMax` requires an integer value.
- Strings are sequences of single-byte characters; `strlen` is the sequence length.
- PHP turns numeric-string array keys into integers; field names are kept as strings.
- The `$this` returned by every setter and check for chaining: the methods return nothing.
- Validation.New: `$ruleSet` values that are not arrays are reduced to their truthiness.
- ErrorLogs.ParseTwice: requires a field name without `{`, which is stronger than needed; a name holding `{` but no placeholder would also do.
- Templates.SubstituteFills, Templates.LengthMessage, Templates.MinMaxMessage: stated only for a field name without `{`. A name holding placeholder text is itself rewritten by the later passes (a name "{{lenMin}}" turns into the `lenMin` bound); `Templates.Substitute` computes that case, but no lemma describes its result.
- Integer width: PHP ints are 64-bit, and a value or bound beyond `PHP_INT_MAX` becomes a float, which `str_replace` writes in E notation; the model's ints are unbounded and always written as decimal digits.
