/** The form validator (validators.js): each field carries a value and an
    ordered list of rule names; a field's error is the message of the first
    rule its value breaks, and the form is valid when no field has an error.
    Values are coerced to numbers by unary plus, `Rng.ToNumber`. */
module Validators {
  import opened Numbers
  import opened Rng

  // ---------------------------------------------------------------------------
  // The atomic rules

  /** `isNumber`: not the empty text, and not NaN once coerced. */
  predicate IsNumber(v: JsValue)
  {
    v != JsStr("") && ToNumber(v) != NaN
  }

  /** `isInt`: the coerced value is a whole number. */
  predicate IsInt(v: JsValue)
  {
    ToNumber(v).Fin? && ToNumber(v).val == ToNumber(v).val.Floor as real
  }

  /** `ge0`: the coerced value is at least 0 (NaN compares false). */
  predicate Ge0(v: JsValue)
  {
    ToNumber(v).Fin? && ToNumber(v).val >= 0.0
  }

  /** `gt0`: the coerced value is above 0. */
  predicate Gt0(v: JsValue)
  {
    ToNumber(v).Fin? && ToNumber(v).val > 0.0
  }

  /** `prob01`: the coerced value lies in [0, 1]. */
  predicate Prob01(v: JsValue)
  {
    ToNumber(v).Fin? && 0.0 <= ToNumber(v).val <= 1.0
  }

  /** The empty text coerces to 0 but is not a number; it does pass `isInt`. */
  lemma EmptyText()
    ensures ToNumber(JsStr("")) == Fin(0.0)
    ensures !IsNumber(JsStr("")) && IsInt(JsStr(""))
  {
    assert TrimEnd(TrimStart("")) == "";
  }

  /** A positive value is a non-negative one, and a probability is
      non-negative too. */
  lemma RuleImplications(v: JsValue)
    ensures Gt0(v) ==> Ge0(v)
    ensures Prob01(v) ==> Ge0(v)
    ensures Ge0(v) || Gt0(v) || Prob01(v) || IsInt(v) ==> ToNumber(v) != NaN
  {
  }

  /** `prob01` accepts exactly the numbers from 0 to 1. */
  lemma Prob01Exactly(x: real)
    ensures Prob01(JsNum(Fin(x))) <==> 0.0 <= x <= 1.0
    ensures !Prob01(JsNum(NaN))
  {
  }

  // ---------------------------------------------------------------------------
  // Messages and the checks of one rule

  const Required: string := "Requerido"
  const MustBeNumber: string := "Debe ser num\U{E9}rico"
  const MustBeInteger: string := "Debe ser entero"
  const MustBeGe0: string := "Debe ser \U{2265} 0"
  const MustBeGt0: string := "Debe ser > 0"
  const MustBeProb: string := "Debe estar en [0, 1]"

  /** The value of the "required" rule's test: empty text, null or undefined. */
  predicate Missing(v: JsValue)
  {
    v == JsStr("") || v == Null || v == Undefined
  }

  /** The message rule r gives the value v, or None when v passes r. A rule
      name the validator does not know never gives a message. */
  function Check(r: string, v: JsValue): (m: Option<string>)
    ensures m.Some? ==> r in {"required", "number", "integer", "ge0", "gt0", "prob01"}
  {
    if r == "required" && Missing(v) then Some(Required)
    else if r == "number" && !IsNumber(v) then Some(MustBeNumber)
    else if r == "integer" && !IsInt(v) then Some(MustBeInteger)
    else if r == "ge0" && !Ge0(v) then Some(MustBeGe0)
    else if r == "gt0" && !Gt0(v) then Some(MustBeGt0)
    else if r == "prob01" && !Prob01(v) then Some(MustBeProb)
    else None
  }

  /** "required" fails exactly on the empty text, null and undefined. */
  lemma RequiredFails(v: JsValue)
    ensures Check("required", v).Some? <==> v == JsStr("") || v == Null || v == Undefined
  {
  }

  // ---------------------------------------------------------------------------
  // A field's error

  /** The message of the first rule in the list that v breaks; None when it
      breaks none. */
  function FirstFailure(v: JsValue, rules: seq<string>): Option<string>
  {
    if rules == [] then None
    else if Check(rules[0], v).Some? then Check(rules[0], v)
    else FirstFailure(v, rules[1..])
  }

  /** When the first i rules pass, FirstFailure is the message of rule i, or
      None if there is no rule i. */
  lemma {:induction false} FirstFailureAt(v: JsValue, rules: seq<string>, i: nat)
    requires i <= |rules|
    requires forall j :: 0 <= j < i ==> Check(rules[j], v) == None
    ensures i == |rules| ==> FirstFailure(v, rules) == None
    ensures i < |rules| && Check(rules[i], v).Some? ==> FirstFailure(v, rules) == Check(rules[i], v)
  {
    if i > 0 {
      assert Check(rules[0], v) == None;
      FirstFailureAt(v, rules[1..], i - 1);
    }
  }

  /** A field gets a message exactly when one of its rules fails, and the
      message is that of a failing rule all of whose predecessors pass. */
  lemma {:induction false} FirstFailureIsFirst(v: JsValue, rules: seq<string>)
    ensures FirstFailure(v, rules).Some? <==> exists i :: 0 <= i < |rules| && Check(rules[i], v).Some?
    ensures FirstFailure(v, rules).Some? ==>
      exists i :: 0 <= i < |rules| && Check(rules[i], v) == FirstFailure(v, rules) &&
        forall j :: 0 <= j < i ==> Check(rules[j], v) == None
  {
    if rules != [] {
      FirstFailureIsFirst(v, rules[1..]);
      if Check(rules[0], v).Some? {
        assert Check(rules[0], v) == FirstFailure(v, rules);
      } else if FirstFailure(v, rules).Some? {
        var i :| 0 <= i < |rules[1..]| && Check(rules[1..][i], v) == FirstFailure(v, rules[1..]) &&
          forall j :: 0 <= j < i ==> Check(rules[1..][j], v) == None;
        assert Check(rules[i + 1], v) == FirstFailure(v, rules);
        forall j | 0 <= j < i + 1
          ensures Check(rules[j], v) == None
        {
          if j > 0 {
            assert rules[j] == rules[1..][j - 1];
          }
        }
      } else {
        forall i | 0 <= i < |rules|
          ensures Check(rules[i], v) == None
        {
          if i > 0 {
            assert rules[i] == rules[1..][i - 1];
          }
        }
      }
    }
  }

  /** A field with no rules, or with only rule names the validator does not
      know, never gets a message. */
  lemma {:induction false} UnknownRulesPass(v: JsValue, rules: seq<string>)
    requires forall i :: 0 <= i < |rules| ==>
      rules[i] !in {"required", "number", "integer", "ge0", "gt0", "prob01"}
    ensures FirstFailure(v, rules) == None
  {
    if rules != [] {
      UnknownRulesPass(v, rules[1..]);
    }
  }

  // ---------------------------------------------------------------------------
  // The whole form

  /** A field's configuration: its value and its rules (`cfg.rules || []`, a
      missing list being no rules). */
  datatype FieldSpec = FieldSpec(value: JsValue, rules: Option<seq<string>>)

  function RulesOf(f: FieldSpec): seq<string>
  {
    match f.rules
    case None => []
    case Some(rs) => rs
  }

  /** The errors object after the fields of `entries`, in order: each field
      with a message sets its key. */
  function Errors(entries: seq<(string, FieldSpec)>): map<string, string>
  {
    if entries == [] then map[]
    else
      var n := |entries| - 1;
      var (key, f) := entries[n];
      match FirstFailure(f.value, RulesOf(f))
      case None => Errors(entries[..n])
      case Some(m) => Errors(entries[..n])[key := m]
  }

  /** The inner loop of `validate` for one field: its rules in turn, until
      the first that fails writes its message under the field's key. */
  method CheckField(key: string, v: JsValue, rules: seq<string>, errors: map<string, string>, ok: bool)
    returns (errors': map<string, string>, ok': bool)
    ensures FirstFailure(v, rules) == None ==> errors' == errors && ok' == ok
    ensures FirstFailure(v, rules).Some? ==>
      errors' == errors[key := FirstFailure(v, rules).value] && !ok'
  {
    errors', ok' := errors, ok;
    var i := 0;
    while i < |rules|
      invariant i <= |rules|
      invariant forall j :: 0 <= j < i ==> Check(rules[j], v) == None
      invariant errors' == errors && ok' == ok
    {
      var r := rules[i];
      if r == "required" && (v == JsStr("") || v == Null || v == Undefined) {
        errors' := errors'[key := Required]; ok' := false; break;
      }
      if r == "number" && !IsNumber(v) { errors' := errors'[key := MustBeNumber]; ok' := false; break; }
      if r == "integer" && !IsInt(v) { errors' := errors'[key := MustBeInteger]; ok' := false; break; }
      if r == "ge0" && !Ge0(v) { errors' := errors'[key := MustBeGe0]; ok' := false; break; }
      if r == "gt0" && !Gt0(v) { errors' := errors'[key := MustBeGt0]; ok' := false; break; }
      if r == "prob01" && !Prob01(v) { errors' := errors'[key := MustBeProb]; ok' := false; break; }
      i := i + 1;
    }
    FirstFailureAt(v, rules, i);
  }

  /** `validate(spec)`: every field in turn, whatever the earlier fields gave. */
  method Validate(entries: seq<(string, FieldSpec)>) returns (ok: bool, errors: map<string, string>)
    ensures errors == Errors(entries)
    ensures ok <==> errors == map[]
  {
    errors := map[];
    ok := true;
    var k := 0;
    while k < |entries|
      invariant k <= |entries|
      invariant errors == Errors(entries[..k])
      invariant ok <==> errors == map[]
    {
      var (key, f) := entries[k];
      errors, ok := CheckField(key, f.value, RulesOf(f), errors, ok);
      if !ok {
        assert key in errors || Errors(entries[..k]) != map[];
      }
      assert entries[..k + 1][..k] == entries[..k];
      k := k + 1;
    }
    assert entries[..k] == entries;
  }

  /** When the keys are distinct, every field is checked on its own: its key
      carries an error exactly when its value breaks a rule, and the error is
      the first broken rule's message, whatever the other fields hold. */
  lemma {:induction false} ErrorsPerField(entries: seq<(string, FieldSpec)>, j: nat)
    requires j < |entries|
    requires forall a, b :: 0 <= a < b < |entries| ==> entries[a].0 != entries[b].0
    ensures var (key, f) := entries[j];
      (key in Errors(entries) <==> FirstFailure(f.value, RulesOf(f)).Some?) &&
      (key in Errors(entries) ==> Errors(entries)[key] == FirstFailure(f.value, RulesOf(f)).value)
  {
    var n := |entries| - 1;
    if j < n {
      ErrorsPerField(entries[..n], j);
    } else {
      NoKey(entries[..n], entries[n].0);
    }
  }

  /** A key that no entry has never gets an error. */
  lemma {:induction false} NoKey(entries: seq<(string, FieldSpec)>, key: string)
    requires forall a :: 0 <= a < |entries| ==> entries[a].0 != key
    ensures key !in Errors(entries)
  {
    if entries != [] {
      NoKey(entries[..|entries| - 1], key);
    }
  }

  /** Only keys of the form get errors. */
  lemma {:induction false} ErrorKeys(entries: seq<(string, FieldSpec)>, key: string)
    requires key in Errors(entries)
    ensures exists a :: 0 <= a < |entries| && entries[a].0 == key
  {
    var n := |entries| - 1;
    if key != entries[n].0 {
      ErrorKeys(entries[..n], key);
      var a :| 0 <= a < n && entries[..n][a].0 == key;
      assert entries[a].0 == key;
    }
  }

  /** A field whose value breaks none of its rules. */
  predicate Passes(f: FieldSpec)
  {
    FirstFailure(f.value, RulesOf(f)) == None
  }

  /** The form is valid exactly when every field passes. */
  lemma {:induction false} NoErrors(entries: seq<(string, FieldSpec)>)
    ensures Errors(entries) == map[] <==> forall a :: 0 <= a < |entries| ==> Passes(entries[a].1)
  {
    if entries != [] {
      var n := |entries| - 1;
      var front := entries[..n];
      NoErrors(front);
      if !Passes(entries[n].1) {
        assert entries[n].0 in Errors(entries);
      } else {
        assert Errors(entries) == Errors(front);
        if Errors(front) == map[] {
          forall a | 0 <= a < |entries|
            ensures Passes(entries[a].1)
          {
            if a < n {
              assert entries[a] == front[a];
            }
          }
        } else {
          var a :| 0 <= a < n && !Passes(front[a].1);
          assert entries[a] == front[a];
        }
      }
    }
  }

  // ---------------------------------------------------------------------------
  // Clearing a form

  /** `zeros(keys)`: an object with every given key set to 0. */
  method Zeros(keys: seq<string>) returns (out: map<string, int>)
    ensures out.Keys == set k | k in keys
    ensures forall k :: k in out ==> out[k] == 0
  {
    out := map[];
    var i := 0;
    while i < |keys|
      invariant i <= |keys|
      invariant out.Keys == set k | k in keys[..i]
      invariant forall k :: k in out ==> out[k] == 0
    {
      out := out[keys[i] := 0];
      assert keys[..i + 1] == keys[..i] + [keys[i]];
      i := i + 1;
    }
    assert keys[..i] == keys;
  }
}
