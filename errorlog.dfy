/**
 * The validator's `errors` array: a PHP ordered array from field name to the
 * list of messages recorded for that field. `order` keeps the order in which
 * fields were first recorded, which PHP's array keeps implicitly.
 */
module ErrorLogs {
  import opened Templates

  datatype ErrorLog = ErrorLog(order: seq<string>, lists: map<string, seq<string>>) {

    /** Each field appears once in `order`, exactly the fields have lists, and no list is empty. */
    ghost predicate Valid() {
      (forall i, j :: 0 <= i < j < |order| ==> order[i] != order[j])
      && (forall k :: k in lists <==> k in order)
      && (forall k :: k in lists ==> lists[k] != [])
    }

    /**
     * `$this->errors[$key][] = $msg`: the message goes to the end of the
     * field's list, a new field goes after all others, and every other list
     * stays as it was.
     */
    function Append(key: string, msg: string): (r: ErrorLog)
      requires Valid()
      ensures r.Valid()
      ensures r.lists.Keys == lists.Keys + {key}
      ensures r.lists[key] == (if key in lists then lists[key] else []) + [msg]
      ensures forall k :: k in lists && k != key ==> r.lists[k] == lists[k]
      ensures r.order == if key in lists then order else order + [key]
    {
      if key in lists then ErrorLog(order, lists[key := lists[key] + [msg]])
      else ErrorLog(order + [key], lists[key := [msg]])
    }

    /** `failed()`: `count($this->errors) != 0`, true exactly when some field has a message. */
    function Failed(): (r: bool)
      requires Valid()
      ensures r <==> order != []
      ensures r <==> exists k :: k in lists && lists[k] != []
    {
      if order != [] then assert order[0] in lists; |lists| != 0
      else assert lists.Keys == {}; |lists| != 0
    }

    /** `getFirstError()`: the first message of the first field recorded, or `''`. */
    function First(): string
      requires Valid()
    {
      if Failed() then lists[order[0]][0] else ""
    }

    /**
     * The rebuilt array of `parseErrors`: same fields in the same order, lists
     * of the same lengths, and every message of every field substituted with
     * the same bindings, whatever field it is stored under.
     */
    function Parse(b: Bindings): (r: ErrorLog)
      requires Valid()
      ensures r.Valid() && r.order == order && r.lists.Keys == lists.Keys
      ensures forall k :: k in lists ==> |r.lists[k]| == |lists[k]|
      ensures forall k, i :: k in lists && 0 <= i < |lists[k]| ==> r.lists[k][i] == Substitute(lists[k][i], b)
    {
      ErrorLog(order, map k | k in lists :: SubstituteAll(lists[k], b))
    }

    /** The number of messages recorded over all fields. */
    function Total(): nat {
      Count(order, lists)
    }

    /** No message holds `{`, so none holds a placeholder. */
    ghost predicate Clean() {
      forall k, i :: k in lists && 0 <= i < |lists[k]| ==> '{' !in lists[k][i]
    }

    /** Every message is one of the default templates, unsubstituted. */
    ghost predicate FromDefaults() {
      forall k, i :: k in lists && 0 <= i < |lists[k]| ==> lists[k][i] in DefaultResponses.Values
    }
  }

  /** The empty `errors` array a validator starts with. */
  const NoErrors: ErrorLog := ErrorLog([], map[])

  /** The number of messages listed under `keys`. */
  function Count(keys: seq<string>, lists: map<string, seq<string>>): nat {
    if keys == [] then 0
    else
      var last := keys[|keys| - 1];
      Count(keys[..|keys| - 1], lists) + (if last in lists then |lists[last]| else 0)
  }

  /** Two field maps with the same keys and the same lists are equal. */
  lemma SameEntries(m1: map<string, seq<string>>, m2: map<string, seq<string>>)
    requires forall k :: k in m1 <==> k in m2
    requires forall k :: k in m1 ==> m1[k] == m2[k]
    ensures m1 == m2
  {
  }

  lemma {:induction false} CountOther(keys: seq<string>, lists: map<string, seq<string>>, key: string, v: seq<string>)
    requires key !in keys
    ensures Count(keys, lists[key := v]) == Count(keys, lists)
  {
    if keys != [] {
      CountOther(keys[..|keys| - 1], lists, key, v);
    }
  }

  lemma {:induction false} CountGrow(keys: seq<string>, lists: map<string, seq<string>>, key: string, msg: string)
    requires key in keys && key in lists
    requires forall i, j :: 0 <= i < j < |keys| ==> keys[i] != keys[j]
    ensures Count(keys, lists[key := lists[key] + [msg]]) == Count(keys, lists) + 1
  {
    var init, last := keys[..|keys| - 1], keys[|keys| - 1];
    if last == key {
      assert key !in init;
      CountOther(init, lists, key, lists[key] + [msg]);
    } else {
      assert key in init;
      CountGrow(init, lists, key, msg);
    }
  }

  /** Every check that fails records exactly one message more. */
  lemma AppendAddsOne(log: ErrorLog, key: string, msg: string)
    requires log.Valid()
    ensures log.Append(key, msg).Total() == log.Total() + 1
  {
    if key in log.lists {
      CountGrow(log.order, log.lists, key, msg);
    } else {
      CountOther(log.order, log.lists, key, [msg]);
      assert (log.order + [key])[..|log.order|] == log.order;
    }
  }

  /** Recording a message never changes the first error, except on an empty log, where it becomes it. */
  lemma AppendFirst(log: ErrorLog, key: string, msg: string)
    requires log.Valid()
    ensures log.Append(key, msg).First() == if log.Failed() then log.First() else msg
  {
    var r := log.Append(key, msg);
    if log.Failed() && key == log.order[0] {
      assert r.lists[key][0] == log.lists[key][0];
    }
  }

  /** The first error after substitution is the substituted first error. */
  lemma ParseFirst(log: ErrorLog, b: Bindings)
    requires log.Valid()
    ensures log.Parse(b).First() == if log.Failed() then Substitute(log.First(), b) else ""
  {
  }

  /** Substitution leaves a log without placeholders unchanged. */
  lemma ParseClean(log: ErrorLog, b: Bindings)
    requires log.Valid() && log.Clean()
    ensures log.Parse(b) == log
  {
    var r := log.Parse(b);
    forall k | k in log.lists ensures r.lists[k] == log.lists[k] {
      forall i | 0 <= i < |log.lists[k]| ensures r.lists[k][i] == log.lists[k][i] {
        SubstituteClean(log.lists[k][i], b);
      }
    }
  }

  /**
   * For messages made from the default templates and a field name without
   * `{`, substitution removes every placeholder, so any later substitution,
   * with any name and bounds, changes nothing.
   */
  lemma ParseTwice(log: ErrorLog, b: Bindings, later: Bindings)
    requires log.Valid() && log.FromDefaults() && '{' !in b.name
    ensures log.Parse(b).Clean()
    ensures log.Parse(b).Parse(later) == log.Parse(b)
  {
    var r := log.Parse(b);
    forall k, i | k in r.lists && 0 <= i < |r.lists[k]| ensures '{' !in r.lists[k][i] {
      var kind :| kind in DefaultResponses && DefaultResponses[kind] == log.lists[k][i];
      DefaultSubstitution(kind, b);
    }
    ParseClean(r, later);
  }
}
