/**
 * Message templates and their substitution (`parseErrors` in Validate.php).
 * A template holds the placeholders `{{field}}`, `{{lenMin}}`, `{{lenMax}}`,
 * `{{numMin}}` and `{{numMax}}`; substitution replaces them one after the
 * other, each with a `str_replace` over the whole message.
 */
module Templates {
  import opened Strings

  /** The five placeholders, in the order `parseErrors` replaces them. */
  datatype Slot = Field | LenMin | LenMax | NumMin | NumMax

  function Marker(k: Slot): string {
    match k
    case Field => "{{field}}"
    case LenMin => "{{lenMin}}"
    case LenMax => "{{lenMax}}"
    case NumMin => "{{numMin}}"
    case NumMax => "{{numMax}}"
  }

  /** What substitution reads from the validator: the current name and the last-stored bounds. */
  datatype Bindings = Bindings(name: string, lenMin: int, lenMax: int, numMin: int, numMax: int)

  /** The text a placeholder is replaced with. */
  function SlotValue(b: Bindings, k: Slot): string {
    match k
    case Field => UcFirst(b.name)
    case LenMin => IntToString(b.lenMin)
    case LenMax => IntToString(b.lenMax)
    case NumMin => IntToString(b.numMin)
    case NumMax => IntToString(b.numMax)
  }

  /**
   * One message after the five `str_replace` passes of `parseErrors`: every
   * character comes from the message, the field name or the bounds.
   */
  function Substitute(m: string, b: Bindings): (r: string)
    ensures forall c :: c in r ==> c in m || c in UcFirst(b.name) || c == '-' || '0' <= c <= '9'
  {
    var m1 := Replace(m, Marker(Field), SlotValue(b, Field));
    var m2 := Replace(m1, Marker(LenMin), SlotValue(b, LenMin));
    var m3 := Replace(m2, Marker(LenMax), SlotValue(b, LenMax));
    var m4 := Replace(m3, Marker(NumMin), SlotValue(b, NumMin));
    Replace(m4, Marker(NumMax), SlotValue(b, NumMax))
  }

  /** `str_replace` applied to a list of messages replaces in each of them. */
  function SubstituteAll(ms: seq<string>, b: Bindings): (r: seq<string>)
    ensures |r| == |ms| && forall i :: 0 <= i < |ms| ==> r[i] == Substitute(ms[i], b)
  {
    if ms == [] then [] else [Substitute(ms[0], b)] + SubstituteAll(ms[1..], b)
  }

  /** A message without `{`, the first character of every placeholder, is left as it is. */
  lemma SubstituteClean(m: string, b: Bindings)
    requires '{' !in m
    ensures Substitute(m, b) == m
  {
    ReplaceAbsent(m, Marker(Field), SlotValue(b, Field));
    ReplaceAbsent(m, Marker(LenMin), SlotValue(b, LenMin));
    ReplaceAbsent(m, Marker(LenMax), SlotValue(b, LenMax));
    ReplaceAbsent(m, Marker(NumMin), SlotValue(b, NumMin));
    ReplaceAbsent(m, Marker(NumMax), SlotValue(b, NumMax));
  }

  /** An index at which two different placeholders have different characters. */
  function Difference(j: Slot, k: Slot): (d: nat)
    requires j != k
    ensures d < |Marker(j)| && d < |Marker(k)| && Marker(j)[d] != Marker(k)[d]
  {
    if (j.LenMin? || j.LenMax?) && (k.LenMin? || k.LenMax?) then 6
    else if (j.NumMin? || j.NumMax?) && (k.NumMin? || k.NumMax?) then 6
    else 2
  }

  /** Every placeholder is `{{` followed by text without `{`. */
  lemma MarkerShape(k: Slot)
    ensures |Marker(k)| > 2 && Marker(k)[0] == '{' && Marker(k)[1] == '{'
    ensures '{' !in Marker(k)[2..] && Marker(k)[2] != '{'
  {
  }

  /** A placeholder is never mistaken for another one: replacing `k` copies a `j` placeholder unchanged. */
  lemma {:induction false} MarkerSkip(j: Slot, k: Slot, rest: string, v: string)
    requires j != k
    ensures Replace(Marker(j) + rest, Marker(k), v) == Marker(j) + Replace(rest, Marker(k), v)
  {
    MarkerShape(j);
    MarkerShape(k);
    SkipOpening(Marker(j), rest, Marker(k), v, Difference(j, k));
  }

  /** A message template as written: literal texts and placeholders, in order. */
  datatype Template = End | Literal(text: string, rest: Template) | Placeholder(slot: Slot, rest: Template)

  /** A placeholder as it reads: its value once filled, else the placeholder itself. */
  function Shown(k: Slot, filled: map<Slot, string>): string {
    if k in filled then filled[k] else Marker(k)
  }

  /** The template's text once the slots in `filled` are replaced; the other placeholders stay. */
  function Render(t: Template, filled: map<Slot, string>): string {
    match t
    case End => ""
    case Literal(s, rest) => s + Render(rest, filled)
    case Placeholder(k, rest) => Shown(k, filled) + Render(rest, filled)
  }

  /** The template text, placeholders still in place. */
  function Source(t: Template): string {
    Render(t, map[])
  }

  /** Every placeholder with the text that replaces it. */
  function AllValues(b: Bindings): map<Slot, string> {
    map k | k in {Field, LenMin, LenMax, NumMin, NumMax} :: SlotValue(b, k)
  }

  /** The template with every placeholder filled in. */
  function Fill(t: Template, b: Bindings): string {
    Render(t, AllValues(b))
  }

  /** No literal text of the template holds `{`. */
  predicate BraceFree(t: Template) {
    match t
    case End => true
    case Literal(s, rest) => '{' !in s && BraceFree(rest)
    case Placeholder(_, rest) => BraceFree(rest)
  }

  predicate ValuesBraceFree(filled: map<Slot, string>) {
    forall k :: k in filled ==> '{' !in filled[k]
  }

  /** One `str_replace` pass fills exactly the placeholder it searches for. */
  lemma {:induction false} PassFills(t: Template, filled: map<Slot, string>, k: Slot, v: string)
    requires k !in filled && BraceFree(t) && ValuesBraceFree(filled) && '{' !in v
    ensures Replace(Render(t, filled), Marker(k), v) == Render(t, filled[k := v])
  {
    MarkerShape(k);
    match t
    case End =>
    case Literal(s, rest) =>
      PassFills(rest, filled, k, v);
      ReplaceSkip(s, Render(rest, filled), Marker(k), v);
    case Placeholder(j, rest) =>
      PassFills(rest, filled, k, v);
      if j == k {
        ReplaceAt(Marker(k), Render(rest, filled), v);
      } else if j in filled {
        ReplaceSkip(filled[j], Render(rest, filled), Marker(k), v);
      } else {
        MarkerSkip(j, k, Render(rest, filled), v);
      }
  }

  /** With every placeholder filled by text without `{`, no `{` is left. */
  lemma {:induction false} FilledBraceFree(t: Template, filled: map<Slot, string>)
    requires BraceFree(t) && ValuesBraceFree(filled)
    requires forall k: Slot :: k in filled
    ensures '{' !in Render(t, filled)
  {
    match t
    case End =>
    case Literal(s, rest) =>
      FilledBraceFree(rest, filled);
    case Placeholder(j, rest) =>
      FilledBraceFree(rest, filled);
  }

  lemma BindingsBraceFree(b: Bindings)
    requires '{' !in b.name
    ensures ValuesBraceFree(AllValues(b))
  {
    UcFirstKeeps(b.name, '{');
  }

  /**
   * Substitution theorem: when the literal texts of a template and the field
   * name hold no `{`, the five passes of `parseErrors` produce exactly the
   * template with every placeholder filled in, and the result holds no `{`.
   */
  lemma SubstituteFills(t: Template, b: Bindings)
    requires BraceFree(t) && '{' !in b.name
    ensures Substitute(Source(t), b) == Fill(t, b)
    ensures '{' !in Fill(t, b)
  {
    BindingsBraceFree(b);
    var f0: map<Slot, string> := map[];
    var f1 := f0[Field := SlotValue(b, Field)];
    var f2 := f1[LenMin := SlotValue(b, LenMin)];
    var f3 := f2[LenMax := SlotValue(b, LenMax)];
    var f4 := f3[NumMin := SlotValue(b, NumMin)];
    var f5 := f4[NumMax := SlotValue(b, NumMax)];
    PassFills(t, f0, Field, SlotValue(b, Field));
    PassFills(t, f1, LenMin, SlotValue(b, LenMin));
    PassFills(t, f2, LenMax, SlotValue(b, LenMax));
    PassFills(t, f3, NumMin, SlotValue(b, NumMin));
    PassFills(t, f4, NumMax, SlotValue(b, NumMax));
    forall k: Slot ensures k in f5 && f5[k] == AllValues(b)[k] {
      match k
      case Field =>
      case LenMin =>
      case LenMax =>
      case NumMin =>
      case NumMax =>
    }
    assert f5 == AllValues(b);
    FilledBraceFree(t, f5);
  }

  /** The keys of the default `responses` table, in their declaration order. */
  const DefaultKeys: seq<string> := [
    "empty", "badFormat", "length", "minMax", "int", "float", "alpha",
    "alphanum", "whiteSpace", "url", "uri", "bool", "email"
  ]

  /** The text that follows `{{field}}` in the default templates with no other placeholder. */
  function PlainTail(kind: string): string {
    if kind == "whiteSpace" then " cannot contain spaces"
    else if kind == "empty" then " must not be empty"
    else if kind == "badFormat" then " is invalid"
    else if kind == "int" then " must be an integer"
    else if kind == "float" then " must be a float"
    else if kind == "alpha" then " must only contain letters (a-z)"
    else if kind == "alphanum" then " must only contain letters (a-z) and numbers (0-9)"
    else if kind == "url" then " must be an URL"
    else if kind == "uri" then " must be an URI"
    else if kind == "bool" then " must be a boolean (true-false)"
    else " must be a valid email"
  }

  /**
   * The default templates: every one opens with `{{field}}`; `length` and
   * `minMax` go on with their two bounds.
   */
  function DefaultTemplate(kind: string): Template {
    if kind == "length" then
      Placeholder(Field, Literal(" must be between ", Placeholder(LenMin, Literal(" and ",
        Placeholder(LenMax, Literal(" characters long", End))))))
    else if kind == "minMax" then
      Placeholder(Field, Literal(" must be between ", Placeholder(NumMin, Literal(" and ",
        Placeholder(NumMax, End)))))
    else
      Placeholder(Field, Literal(PlainTail(kind), End))
  }

  /** The default `responses` table, one message template per kind of failure. */
  const DefaultResponses: map<string, string> := map[
    "empty" := "{{field}}" + " must not be empty",
    "badFormat" := "{{field}}" + " is invalid",
    "length" := "{{field}}" + " must be between " + "{{lenMin}}" + " and " + "{{lenMax}}" + " characters long",
    "minMax" := "{{field}}" + " must be between " + "{{numMin}}" + " and " + "{{numMax}}",
    "int" := "{{field}}" + " must be an integer",
    "float" := "{{field}}" + " must be a float",
    "alpha" := "{{field}}" + " must only contain letters (a-z)",
    "alphanum" := "{{field}}" + " must only contain letters (a-z) and numbers (0-9)",
    "whiteSpace" := "{{field}}" + " cannot contain spaces",
    "url" := "{{field}}" + " must be an URL",
    "uri" := "{{field}}" + " must be an URI",
    "bool" := "{{field}}" + " must be a boolean (true-false)",
    "email" := "{{field}}" + " must be a valid email"
  ]

  /** A responses table that has a template for every default key. */
  predicate Complete(responses: map<string, string>) {
    forall k :: k in DefaultKeys ==> k in responses
  }

  /** The literal texts of the default templates, a few at a time: none holds `{`. */
  lemma ShortTailsBraceFree()
    ensures '{' !in " cannot contain spaces" && '{' !in " must not be empty" && '{' !in " is invalid"
    ensures '{' !in " must be an integer" && '{' !in " must be a float"
  {
  }

  lemma LetterTailsBraceFree()
    ensures '{' !in " must only contain letters (a-z)"
    ensures '{' !in " must only contain letters (a-z) and numbers (0-9)"
  {
  }

  lemma OtherTailsBraceFree()
    ensures '{' !in " must be an URL" && '{' !in " must be an URI"
    ensures '{' !in " must be a boolean (true-false)" && '{' !in " must be a valid email"
  {
  }

  lemma BoundsTextsBraceFree()
    ensures '{' !in " must be between " && '{' !in " and " && '{' !in " characters long"
  {
  }

  /** The literal texts of the default templates hold no `{`. */
  lemma DefaultBraceFree(kind: string)
    ensures BraceFree(DefaultTemplate(kind))
  {
    BoundsTextsBraceFree();
    ShortTailsBraceFree();
    LetterTailsBraceFree();
    OtherTailsBraceFree();
  }

  /** Regrouping a concatenation of six strings to the left, as the default templates read. */
  lemma Regroup(a: string, b: string, c: string, d: string, e: string, g: string)
    ensures a + (b + (c + (d + (e + g)))) == a + b + c + d + e + g
  {
  }

  /** A template with three placeholders separated by two texts, rendered piece by piece. */
  lemma {:induction false} RenderThreeNested(a: Slot, s1: string, c: Slot, s2: string, e: Slot, tail: Template, f: map<Slot, string>)
    ensures Render(Placeholder(a, Literal(s1, Placeholder(c, Literal(s2, Placeholder(e, tail))))), f)
      == Shown(a, f) + (s1 + (Shown(c, f) + (s2 + (Shown(e, f) + Render(tail, f)))))
  {
    var t4 := Literal(s2, Placeholder(e, tail));
    var t2 := Literal(s1, Placeholder(c, t4));
    assert Render(t4, f) == s2 + (Shown(e, f) + Render(tail, f));
    assert Render(t2, f) == s1 + (Shown(c, f) + Render(t4, f));
  }

  lemma RenderThreeHoles(a: Slot, s1: string, c: Slot, s2: string, e: Slot, tail: Template, f: map<Slot, string>)
    ensures Render(Placeholder(a, Literal(s1, Placeholder(c, Literal(s2, Placeholder(e, tail))))), f)
      == Shown(a, f) + s1 + Shown(c, f) + s2 + Shown(e, f) + Render(tail, f)
  {
    RenderThreeNested(a, s1, c, s2, e, tail, f);
    Regroup(Shown(a, f), s1, Shown(c, f), s2, Shown(e, f), Render(tail, f));
  }

  /** The `length` template, rendered with the slots of `f`. */
  lemma LengthRender(f: map<Slot, string>)
    ensures Render(DefaultTemplate("length"), f)
      == Shown(Field, f) + " must be between " + Shown(LenMin, f) + " and " + Shown(LenMax, f) + " characters long"
  {
    var tail := Literal(" characters long", End);
    assert Render(tail, f) == " characters long" + "";
    RenderThreeHoles(Field, " must be between ", LenMin, " and ", LenMax, tail, f);
  }

  /** The `minMax` template, rendered with the slots of `f`. */
  lemma MinMaxRender(f: map<Slot, string>)
    ensures Render(DefaultTemplate("minMax"), f)
      == Shown(Field, f) + " must be between " + Shown(NumMin, f) + " and " + Shown(NumMax, f)
  {
    assert "minMax"[0] != "length"[0];
    RenderThreeHoles(Field, " must be between ", NumMin, " and ", NumMax, End, f);
    assert Render(End, f) == "";
  }

  /** The default table has a template under every default key. */
  lemma DefaultComplete()
    ensures Complete(DefaultResponses)
  {
  }

  /** The `length` template, as a template, reads as the table's entry. */
  lemma LengthAgrees()
    ensures Source(DefaultTemplate("length")) == DefaultResponses["length"]
  {
    LengthRender(map[]);
  }

  /** The `minMax` template, as a template, reads as the table's entry. */
  lemma MinMaxAgrees()
    ensures Source(DefaultTemplate("minMax")) == DefaultResponses["minMax"]
  {
    MinMaxRender(map[]);
  }

  /** Every other default template reads as `{{field}}` followed by its tail. */
  lemma PlainAgrees(kind: string)
    requires kind in DefaultResponses && kind != "length" && kind != "minMax"
    ensures Source(DefaultTemplate(kind)) == DefaultResponses[kind]
  {
    assert Render(Literal(PlainTail(kind), End), map[]) == PlainTail(kind) + "";
  }

  /** Each default template, read as literal texts and placeholders, spells the table's entry. */
  lemma DefaultAgrees(kind: string)
    requires kind in DefaultResponses
    ensures Source(DefaultTemplate(kind)) == DefaultResponses[kind]
  {
    if kind == "length" {
      LengthAgrees();
    } else if kind == "minMax" {
      MinMaxAgrees();
    } else {
      PlainAgrees(kind);
    }
  }

  /**
   * Substituting a default template yields that template with the current
   * name (upper-cased first letter) and the stored bounds filled in, and no
   * placeholder (indeed no `{`) remains, provided the name holds no `{`.
   */
  lemma DefaultSubstitution(kind: string, b: Bindings)
    requires kind in DefaultResponses && '{' !in b.name
    ensures Substitute(DefaultResponses[kind], b) == Fill(DefaultTemplate(kind), b)
    ensures '{' !in Substitute(DefaultResponses[kind], b)
  {
    DefaultAgrees(kind);
    DefaultBraceFree(kind);
    SubstituteFills(DefaultTemplate(kind), b);
  }

  /** The substituted `length` message: current name, then the stored length bounds. */
  lemma LengthMessage(b: Bindings)
    requires '{' !in b.name
    ensures Substitute(DefaultResponses["length"], b)
      == UcFirst(b.name) + " must be between " + IntToString(b.lenMin) + " and " + IntToString(b.lenMax) + " characters long"
  {
    DefaultSubstitution("length", b);
    var f := AllValues(b);
    LengthRender(f);
  }

  /** The substituted `minMax` message: current name, then the stored numeric bounds. */
  lemma MinMaxMessage(b: Bindings)
    requires '{' !in b.name
    ensures Substitute(DefaultResponses["minMax"], b)
      == UcFirst(b.name) + " must be between " + IntToString(b.numMin) + " and " + IntToString(b.numMax)
  {
    DefaultSubstitution("minMax", b);
    var f := AllValues(b);
    MinMaxRender(f);
  }
}
