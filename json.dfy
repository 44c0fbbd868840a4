/**
 * JSON values as the Python extractor and the Firestore payloads carry them,
 * and the `step_N` keys under which both the extractor and the Swift liturgy
 * codec store liturgy steps. Numbers are kept as integers: the model never
 * needs a fractional JSON number.
 */
module Json {
  import opened Text

  datatype Value =
    | Null
    | Bool(b: bool)
    | Num(n: int)
    | Str(s: string)
    | Arr(items: seq<Value>)
    | Obj(fields: map<string, Value>)

  /** A JSON object, as a Python `dict` with string keys. */
  type Record = map<string, Value>

  /** The key of the k-th liturgy step: `f'step_{i}'` in Python, `"step_\\(index + 1)"` in Swift. */
  function StepKey(k: nat): (key: string)
    ensures IsPrefix("step_", key)
  {
    var key := "step_" + NatToString(k);
    assert key[..5] == "step_";
    key
  }

  lemma StepKeyInjective(a: nat, b: nat)
    requires StepKey(a) == StepKey(b)
    ensures a == b
  {
    assert StepKey(a)[5..] == NatToString(a);
    assert StepKey(b)[5..] == NatToString(b);
    NatToStringInjective(a, b);
  }

  lemma StepKeyNotNamed(k: nat)
    ensures StepKey(k) != "entry" && StepKey(k) != "exit"
  {
    assert StepKey(k)[0] == 's';
  }
}
