/**
 * `RoomInstance.swift`: the user's instance of a room, its friction level and
 * the `RoomLiturgy` codec that reads and writes the `entry` / `exit` /
 * `step_N` keys produced by the room extractor.
 *
 * A keyed decoding container is modelled as the sequence of its (key, value)
 * pairs in the order `allKeys` yields them. That order is not specified by
 * Foundation, so every statement about decoding an encoded liturgy quantifies
 * over every permutation of the encoded pairs.
 */
module Instances {
  import opened Text
  import opened Json

  // ---------------------------------------------------------------------
  // Friction level
  // ---------------------------------------------------------------------

  datatype FrictionLevel = Zero | Low | Medium | High

  function FrictionRaw(f: FrictionLevel): string {
    match f
    case Zero => "Zero"
    case Low => "Low"
    case Medium => "Medium"
    case High => "High"
  }

  /** `FrictionLevel(rawValue:)`. */
  function FrictionFromRaw(s: string): (r: Option<FrictionLevel>)
    ensures r.Some? ==> FrictionRaw(r.value) == s
  {
    if s == "Zero" then Some(Zero)
    else if s == "Low" then Some(Low)
    else if s == "Medium" then Some(Medium)
    else if s == "High" then Some(High)
    else None
  }

  /** The raw values are a bijection between the four levels and their names. */
  lemma FrictionRawRoundTrip(f: FrictionLevel, s: string)
    ensures FrictionFromRaw(FrictionRaw(f)) == Some(f)
    ensures FrictionFromRaw(s).Some? <==> s in {"Zero", "Low", "Medium", "High"}
  {
  }

  function FrictionColor(f: FrictionLevel): string {
    match f
    case Zero => "green"
    case Low => "blue"
    case Medium => "yellow"
    case High => "red"
  }

  /** Every level has a colour of its own. */
  lemma FrictionColorsDistinct(f: FrictionLevel, g: FrictionLevel)
    ensures FrictionColor(f) == FrictionColor(g) <==> f == g
  {
  }

  // ---------------------------------------------------------------------
  // Instance records
  // ---------------------------------------------------------------------

  datatype RoomPhysics = RoomPhysics(
    dionysianEnergy: string, apollonianStructure: string, inputLogic: string, outputLogic: string)

  datatype RoomLiturgy = RoomLiturgy(entry: string, steps: seq<string>, exit: string)

  /** Inventory item states as the Engineer's prompt names them. */
  datatype ItemStatus = Operational | Missing | Broken

  function ItemStatusFromRaw(s: string): (r: Option<ItemStatus>)
    ensures r.Some? <==> s in {"Operational", "Missing", "Broken"}
  {
    if s == "Operational" then Some(Operational)
    else if s == "Missing" then Some(Missing)
    else if s == "Broken" then Some(Broken)
    else None
  }

  datatype InventoryItem = InventoryItem(name: string, status: ItemStatus, isCritical: bool)

  datatype MasteryDimension = MasteryDimension(name: string, level: real, description: string)

  datatype RoomTrack = RoomTrack(title: string, duration: real)

  /**
   * Fields the services and views read from an instance that the struct in
   * `RoomInstance.swift` does not declare; they are carried as given.
   */
  datatype InstanceExtras = InstanceExtras(
    inventory: seq<InventoryItem>,
    masteryDimensions: seq<MasteryDimension>,
    totalMinutes: int,
    masteryLevel: int,
    playlist: Option<seq<RoomTrack>>)

  datatype RoomInstance = RoomInstance(
    id: Option<string>,
    definitionId: string,
    variantName: string,
    familiarityScore: real,
    healthScore: real,
    currentFriction: FrictionLevel,
    requiredInventory: seq<string>,
    isActive: bool,
    physics: Option<RoomPhysics>,
    evocativeWhy: Option<string>,
    constraints: seq<string>,
    liturgy: Option<RoomLiturgy>,
    extras: InstanceExtras)

  /** The memberwise initialiser with its default arguments filled in where the caller gives none. */
  function NewRoomInstance(
    definitionId: string,
    variantName: Option<string>,
    requiredInventory: Option<seq<string>>,
    constraints: Option<seq<string>>,
    extras: InstanceExtras): (r: RoomInstance)
    ensures r.id.None? && r.definitionId == definitionId
    ensures r.familiarityScore == 0.0 && r.healthScore == 1.0
    ensures r.currentFriction == Medium && !r.isActive
    ensures r.variantName == variantName.GetOr("")
    ensures r.requiredInventory == requiredInventory.GetOr([])
    ensures r.constraints == constraints.GetOr([])
    ensures r.physics.None? && r.evocativeWhy.None? && r.liturgy.None?
  {
    RoomInstance(None, definitionId, variantName.GetOr(""), 0.0, 1.0, Medium,
      requiredInventory.GetOr([]), false, None, None, constraints.GetOr([]), None, extras)
  }

  // ---------------------------------------------------------------------
  // RoomLiturgy codec
  // ---------------------------------------------------------------------

  /** A keyed container: its pairs in `allKeys` order. */
  type Container = seq<(string, Value)>

  /** `decode(String.self, forKey:)` met a value that is not a string. */
  datatype DecodeError = NotAString(key: string)

  predicate IsStepKey(key: string) {
    IsPrefix("step_", key)
  }

  lemma NamedKeysAreNotSteps()
    ensures !IsStepKey("entry") && !IsStepKey("exit")
  {
    assert "entry"[0..5][0] == 'e';
  }

  /**
   * `init(from:)` after the pairs of `c`, one loop iteration per pair: a
   * non-string value throws, `entry` and `exit` overwrite, a `step_` key
   * appends, any other key is skipped.
   */
  function DecodeSpec(c: Container): Result<RoomLiturgy, DecodeError>
  {
    if c == [] then Ok(RoomLiturgy("", [], ""))
    else
      match DecodeSpec(c[..|c| - 1])
      case Err(e) => Err(e)
      case Ok(l) =>
        var key, value := c[|c| - 1].0, c[|c| - 1].1;
        if !value.Str? then Err(NotAString(key))
        else if key == "entry" then Ok(l.(entry := value.s))
        else if key == "exit" then Ok(l.(exit := value.s))
        else if IsStepKey(key) then Ok(l.(steps := l.steps + [value.s]))
        else Ok(l)
  }

  /** The loop of `init(from:)`. */
  method Decode(c: Container) returns (r: Result<RoomLiturgy, DecodeError>)
    ensures r == DecodeSpec(c)
  {
    var foundEntry := "";
    var foundExit := "";
    var foundSteps: seq<string> := [];
    var i := 0;
    while i < |c|
      invariant 0 <= i <= |c|
      invariant DecodeSpec(c[..i]) == Ok(RoomLiturgy(foundEntry, foundSteps, foundExit))
    {
      assert c[..i + 1][..i] == c[..i];
      var (key, value) := c[i];
      if !value.Str? {
        r := Err(NotAString(key));
        assert DecodeSpec(c[..i + 1]) == r;
        DecodeErrSticks(c, i + 1);
        return;
      }
      if key == "entry" {
        foundEntry := value.s;
      } else if key == "exit" {
        foundExit := value.s;
      } else if IsStepKey(key) {
        foundSteps := foundSteps + [value.s];
      }
      i := i + 1;
    }
    assert c[..i] == c;
    r := Ok(RoomLiturgy(foundEntry, foundSteps, foundExit));
  }

  /** Once a prefix of the container fails, the whole container fails with the same error. */
  lemma {:induction false} DecodeErrSticks(c: Container, n: nat)
    requires n <= |c| && DecodeSpec(c[..n]).Err?
    ensures DecodeSpec(c) == DecodeSpec(c[..n])
    decreases |c| - n
  {
    if n < |c| {
      assert c[..n + 1][..n] == c[..n];
      DecodeErrSticks(c, n + 1);
    } else {
      assert c[..n] == c;
    }
  }

  /** The pairs `encode(to:)` writes, in the order it writes them. */
  function EncodeSpec(l: RoomLiturgy): (c: Container)
    ensures |c| == 2 + |l.steps|
  {
    [("entry", Str(l.entry)), ("exit", Str(l.exit))] + StepPairs(l.steps)
  }

  function StepPairs(steps: seq<string>): (c: Container)
    ensures |c| == |steps|
    ensures forall i :: 0 <= i < |steps| ==> c[i] == (StepKey(i + 1), Str(steps[i]))
  {
    seq(|steps|, i requires 0 <= i < |steps| => (StepKey(i + 1), Str(steps[i])))
  }

  /** The loop of `encode(to:)`. */
  method Encode(l: RoomLiturgy) returns (c: Container)
    ensures c == EncodeSpec(l)
  {
    c := [("entry", Str(l.entry)), ("exit", Str(l.exit))];
    var index := 0;
    while index < |l.steps|
      invariant 0 <= index <= |l.steps|
      invariant c == [("entry", Str(l.entry)), ("exit", Str(l.exit))] + StepPairs(l.steps[..index])
    {
      c := c + [(StepKey(index + 1), Str(l.steps[index]))];
      assert StepPairs(l.steps[..index + 1]) == StepPairs(l.steps[..index]) + [(StepKey(index + 1), Str(l.steps[index]))];
      index := index + 1;
    }
    assert l.steps[..index] == l.steps;
  }

  /** Encoding writes `entry`, `exit`, then `step_1` .. `step_n` holding the steps in order. */
  lemma EncodeKeys(l: RoomLiturgy)
    ensures EncodeSpec(l)[0] == ("entry", Str(l.entry)) && EncodeSpec(l)[1] == ("exit", Str(l.exit))
    ensures forall i :: 0 <= i < |l.steps| ==> EncodeSpec(l)[2 + i] == (StepKey(i + 1), Str(l.steps[i]))
  {
  }

  // --- decoding properties -------------------------------------------------

  predicate AllStrings(c: Container) {
    forall i :: 0 <= i < |c| ==> c[i].1.Str?
  }

  /** Decoding fails exactly when some value is not a string. */
  lemma {:induction false} DecodeFailsIffNonString(c: Container)
    ensures DecodeSpec(c).Ok? <==> AllStrings(c)
  {
    if c != [] {
      var front := c[..|c| - 1];
      DecodeFailsIffNonString(front);
      assert forall i :: 0 <= i < |front| ==> front[i] == c[i];
    }
  }

  /** The string values of the `step_` pairs, in container order. */
  function StepValues(c: Container): seq<string> {
    if c == [] then []
    else
      var key, value := c[|c| - 1].0, c[|c| - 1].1;
      StepValues(c[..|c| - 1]) + (if IsStepKey(key) && value.Str? then [value.s] else [])
  }

  /** The decoded steps are the values of the `step_` keys in container order; every other key is ignored. */
  lemma {:induction false} DecodeSteps(c: Container)
    requires DecodeSpec(c).Ok?
    ensures DecodeSpec(c).value.steps == StepValues(c)
  {
    NamedKeysAreNotSteps();
    if c != [] {
      DecodeSteps(c[..|c| - 1]);
    }
  }

  function CountStepKeys(c: Container): nat {
    if c == [] then 0
    else CountStepKeys(c[..|c| - 1]) + (if IsStepKey(c[|c| - 1].0) then 1 else 0)
  }

  /** As many steps as `step_` keys. */
  lemma {:induction false} DecodeStepCount(c: Container)
    requires DecodeSpec(c).Ok?
    ensures |DecodeSpec(c).value.steps| == CountStepKeys(c)
  {
    NamedKeysAreNotSteps();
    if c != [] {
      var front := c[..|c| - 1];
      assert DecodeSpec(front).Ok?;
      assert c[|c| - 1].1.Str?;
      DecodeStepCount(front);
    }
  }

  predicate HasKey(c: Container, key: string) {
    exists i :: 0 <= i < |c| && c[i].0 == key
  }

  /** Every pair with key `key` holds the value `v`. */
  predicate OnlyValue(c: Container, key: string, v: string) {
    forall i :: 0 <= i < |c| && c[i].0 == key ==> c[i].1 == Str(v)
  }

  /** `entry` is `""` when the key is absent, and its value when every `entry` pair agrees. */
  lemma {:induction false} DecodeEntry(c: Container, v: string)
    requires DecodeSpec(c).Ok?
    ensures !HasKey(c, "entry") ==> DecodeSpec(c).value.entry == ""
    ensures HasKey(c, "entry") && OnlyValue(c, "entry", v) ==> DecodeSpec(c).value.entry == v
  {
    if c != [] {
      var front := c[..|c| - 1];
      assert forall i :: 0 <= i < |front| ==> front[i] == c[i];
      DecodeEntry(front, v);
      if c[|c| - 1].0 != "entry" && HasKey(c, "entry") {
        var i :| 0 <= i < |c| && c[i].0 == "entry";
        assert HasKey(front, "entry");
      }
    }
  }

  /** `exit` is `""` when the key is absent, and its value when every `exit` pair agrees. */
  lemma {:induction false} DecodeExit(c: Container, v: string)
    requires DecodeSpec(c).Ok?
    ensures !HasKey(c, "exit") ==> DecodeSpec(c).value.exit == ""
    ensures HasKey(c, "exit") && OnlyValue(c, "exit", v) ==> DecodeSpec(c).value.exit == v
  {
    if c != [] {
      var front := c[..|c| - 1];
      assert forall i :: 0 <= i < |front| ==> front[i] == c[i];
      DecodeExit(front, v);
      if c[|c| - 1].0 != "exit" && HasKey(c, "exit") {
        var i :| 0 <= i < |c| && c[i].0 == "exit";
        assert HasKey(front, "exit");
      }
    }
  }

  lemma {:induction false} StepValuesAppend(a: Container, b: Container)
    ensures StepValues(a + b) == StepValues(a) + StepValues(b)
    decreases |b|
  {
    if b != [] {
      assert (a + b)[..|a + b| - 1] == a + b[..|b| - 1];
      StepValuesAppend(a, b[..|b| - 1]);
    } else {
      assert a + b == a;
    }
  }

  /** Reordering the pairs permutes the step values. */
  lemma {:induction false} StepValuesPermutation(p: Container, q: Container)
    requires multiset(p) == multiset(q)
    ensures multiset(StepValues(p)) == multiset(StepValues(q))
    decreases |p|
  {
    if p == [] {
      assert |q| == |multiset(q)| == 0;
    } else {
      var front := p[..|p| - 1];
      var x := p[|p| - 1];
      assert p == front + [x];
      assert x in multiset(q);
      var j :| 0 <= j < |q| && q[j] == x;
      var rest := q[..j] + q[j + 1..];
      MultisetWithout(front, x, q, j);
      StepValuesPermutation(front, rest);
      StepValuesAppend(front, [x]);
      StepValuesWithout(q, j);
    }
  }

  /** Taking the same element out of two permutations of each other leaves permutations. */
  lemma MultisetWithout<T>(front: seq<T>, x: T, q: seq<T>, j: nat)
    requires j < |q| && q[j] == x && multiset(front + [x]) == multiset(q)
    ensures multiset(front) == multiset(q[..j] + q[j + 1..])
  {
    var rest := q[..j] + q[j + 1..];
    calc {
      multiset(rest) + multiset{x};
      multiset(q[..j]) + multiset(q[j + 1..]) + multiset([x]);
      { assert q == q[..j] + [x] + q[j + 1..]; }
      multiset(q);
      multiset(front) + multiset{x};
    }
    assert multiset(rest) == multiset(rest) + multiset{x} - multiset{x};
    assert multiset(front) == multiset(front) + multiset{x} - multiset{x};
  }

  lemma SplitAround<T>(q: seq<T>, j: nat)
    requires j < |q|
    ensures q == q[..j] + [q[j]] + q[j + 1..]
  {
  }

  /** The step values of a container are those without one pair, plus that pair's own. */
  lemma StepValuesWithout(q: Container, j: nat)
    requires j < |q|
    ensures multiset(StepValues(q)) == multiset(StepValues(q[..j] + q[j + 1..])) + multiset(StepValues([q[j]]))
  {
    var a, b := q[..j], q[j + 1..];
    var x := q[j];
    SplitAround(q, j);
    StepValuesAppend(a + [x], b);
    StepValuesAppend(a, [x]);
    StepValuesAppend(a, b);
    var va, vx, vb := StepValues(a), StepValues([x]), StepValues(b);
    assert StepValues(q) == (va + vx) + vb;
    assert multiset((va + vx) + vb) == multiset(va) + multiset(vx) + multiset(vb);
    assert multiset(va + vb) == multiset(va) + multiset(vb);
  }

  lemma StepValuesOfEncode(l: RoomLiturgy)
    ensures StepValues(EncodeSpec(l)) == l.steps
  {
    var named: Container := [("entry", Str(l.entry)), ("exit", Str(l.exit))];
    StepValuesAppend(named, StepPairs(l.steps));
    NamedKeysAreNotSteps();
    assert StepValues(named) == [] by {
      var none: Container := [];
      assert named[..1] == none + [named[0]] && named[..1][..0] == none;
      assert StepValues(named[..1]) == [];
    }
    StepValuesOfStepPairs(l.steps);
  }

  lemma {:induction false} StepValuesOfStepPairs(steps: seq<string>)
    ensures StepValues(StepPairs(steps)) == steps
  {
    if steps != [] {
      var n := |steps| - 1;
      assert StepPairs(steps)[..n] == StepPairs(steps[..n]);
      StepValuesOfStepPairs(steps[..n]);
    }
  }

  /** Every pair of an encoded liturgy is a string, and `entry` / `exit` occur once, holding their fields. */
  lemma EncodedPairs(l: RoomLiturgy, pair: (string, Value))
    requires pair in EncodeSpec(l)
    ensures pair.1.Str?
    ensures pair.0 == "entry" ==> pair.1 == Str(l.entry)
    ensures pair.0 == "exit" ==> pair.1 == Str(l.exit)
    ensures IsStepKey(pair.0) ==> pair.0 != "entry" && pair.0 != "exit"
  {
    var i :| 0 <= i < |EncodeSpec(l)| && EncodeSpec(l)[i] == pair;
    NamedKeysAreNotSteps();
    if i >= 2 {
      StepKeyNotNamed(i - 1);
    }
  }

  /**
   * decode(encode(l)), whatever order the container lists the encoded pairs
   * in, succeeds and keeps `entry`, `exit` and the multiset of steps.
   */
  lemma RoundTripUpToOrder(l: RoomLiturgy, p: Container)
    requires multiset(p) == multiset(EncodeSpec(l))
    ensures DecodeSpec(p).Ok?
    ensures DecodeSpec(p).value.entry == l.entry && DecodeSpec(p).value.exit == l.exit
    ensures multiset(DecodeSpec(p).value.steps) == multiset(l.steps)
  {
    var e := EncodeSpec(l);
    forall i | 0 <= i < |p| ensures p[i] in e && p[i].1.Str? {
      assert p[i] in multiset(e);
      EncodedPairs(l, p[i]);
    }
    DecodeFailsIffNonString(p);
    forall i | 0 <= i < |p| && p[i].0 == "entry" ensures p[i].1 == Str(l.entry) {
      EncodedPairs(l, p[i]);
    }
    forall i | 0 <= i < |p| && p[i].0 == "exit" ensures p[i].1 == Str(l.exit) {
      EncodedPairs(l, p[i]);
    }
    assert e[0] in multiset(p) && e[1] in multiset(p);
    assert HasKey(p, "entry") && HasKey(p, "exit");
    DecodeEntry(p, l.entry);
    DecodeExit(p, l.exit);
    DecodeSteps(p);
    StepValuesPermutation(p, e);
    StepValuesOfEncode(l);
  }

  /**
   * As written, the steps come back in container order: listing `step_2`
   * before `step_1` decodes a liturgy of two different steps with the steps
   * swapped, so decode(encode(l)) != l.
   */
  lemma DecodeFollowsContainerOrder(entry: string, first: string, second: string, exit: string)
    requires first != second
    ensures var l := RoomLiturgy(entry, [first, second], exit);
            var p := [(StepKey(2), Str(second)), (StepKey(1), Str(first)), ("entry", Str(entry)), ("exit", Str(exit))];
            multiset(p) == multiset(EncodeSpec(l)) &&
            DecodeSpec(p) == Ok(RoomLiturgy(entry, [second, first], exit)) && DecodeSpec(p) != Ok(l)
  {
    var s2: (string, Value), s1: (string, Value) := (StepKey(2), Str(second)), (StepKey(1), Str(first));
    var en: (string, Value), ex: (string, Value) := ("entry", Str(entry)), ("exit", Str(exit));
    EncodeTwoSteps(entry, first, second, exit);
    SwapIsPermutation(s2, s1, en, ex);
    DecodeSwapped(entry, first, second, exit);
    assert [second, first] != [first, second] by {
      assert [second, first][0] != [first, second][0];
    }
  }

  lemma EncodeTwoSteps(entry: string, first: string, second: string, exit: string)
    ensures EncodeSpec(RoomLiturgy(entry, [first, second], exit)) ==
      [("entry", Str(entry)), ("exit", Str(exit)), (StepKey(1), Str(first)), (StepKey(2), Str(second))]
  {
  }

  lemma DecodeSwapped(entry: string, first: string, second: string, exit: string)
    ensures DecodeSpec([(StepKey(2), Str(second)), (StepKey(1), Str(first)), ("entry", Str(entry)), ("exit", Str(exit))]) ==
      Ok(RoomLiturgy(entry, [second, first], exit))
  {
    var s2: (string, Value), s1: (string, Value) := (StepKey(2), Str(second)), (StepKey(1), Str(first));
    var en: (string, Value), ex: (string, Value) := ("entry", Str(entry)), ("exit", Str(exit));
    StepKeyNotNamed(1);
    StepKeyNotNamed(2);
    var none: Container := [];
    var noSteps: seq<string> := [];
    assert noSteps + [second] == [second] && [second] + [first] == [second, first];
    DecodeSnoc(none, s2.0, second);
    assert DecodeSpec(none + [s2]) == Ok(RoomLiturgy("", [second], ""));
    DecodeSnoc(none + [s2], s1.0, first);
    assert (none + [s2]) + [s1] == [s2, s1];
    assert DecodeSpec([s2, s1]) == Ok(RoomLiturgy("", [second, first], ""));
    DecodeSnoc([s2, s1], "entry", entry);
    assert [s2, s1] + [en] == [s2, s1, en];
    DecodeSnoc([s2, s1, en], "exit", exit);
    assert [s2, s1, en] + [ex] == [s2, s1, en, ex];
  }

  lemma SwapIsPermutation<T>(a: T, b: T, c: T, d: T)
    ensures multiset([a, b, c, d]) == multiset([c, d, b, a])
  {
    calc {
      multiset([a, b, c, d]);
      { assert [a, b, c, d] == [a] + [b] + [c] + [d]; }
      multiset([a]) + multiset([b]) + multiset([c]) + multiset([d]);
      multiset([c]) + multiset([d]) + multiset([b]) + multiset([a]);
      { assert [c, d, b, a] == [c] + [d] + [b] + [a]; }
      multiset([c, d, b, a]);
    }
  }

  /** One more pair with a string value. */
  lemma DecodeSnoc(c: Container, key: string, v: string)
    requires DecodeSpec(c).Ok?
    ensures var l := DecodeSpec(c).value;
            DecodeSpec(c + [(key, Str(v))]) ==
              if key == "entry" then Ok(l.(entry := v))
              else if key == "exit" then Ok(l.(exit := v))
              else if IsStepKey(key) then Ok(l.(steps := l.steps + [v]))
              else Ok(l)
  {
    assert (c + [(key, Str(v))])[..|c|] == c;
  }

  // --- order-preserving decoding ---------------------------------------------

  /** The value of the first pair with key `key`. */
  function Lookup(c: Container, key: string): (r: Option<Value>)
    ensures r.Some? <==> HasKey(c, key)
  {
    if c == [] then None
    else if c[0].0 == key then Some(c[0].1)
    else
      var r := Lookup(c[1..], key);
      assert HasKey(c, key) ==> c[0].0 == key || HasKey(c[1..], key) by {
        if HasKey(c, key) {
          var i :| 0 <= i < |c| && c[i].0 == key;
          if i > 0 { assert c[1..][i - 1].0 == key; }
        }
      }
      assert HasKey(c[1..], key) ==> HasKey(c, key) by {
        if HasKey(c[1..], key) {
          var i :| 0 <= i < |c[1..]| && c[1..][i].0 == key;
          assert c[i + 1].0 == key;
        }
      }
      r
  }

  /** When every pair with key `key` holds `v` and one exists, the lookup finds `v`. */
  lemma {:induction false} LookupOnly(c: Container, key: string, v: string)
    requires HasKey(c, key) && OnlyValue(c, key, v)
    ensures Lookup(c, key) == Some(Str(v))
  {
    if c[0].0 != key {
      assert OnlyValue(c[1..], key, v) by {
        forall i | 0 <= i < |c[1..]| && c[1..][i].0 == key ensures c[1..][i].1 == Str(v) {
          assert c[1..][i] == c[i + 1];
        }
      }
      assert HasKey(c[1..], key) by {
        var i :| 0 <= i < |c| && c[i].0 == key;
        assert c[1..][i - 1] == c[i];
      }
      LookupOnly(c[1..], key, v);
    }
  }

  /** `step_k`, `step_k+1`, ... while present and string-valued. */
  function StepsFrom(c: Container, k: nat): seq<string>
    decreases |c| + 1 - k
  {
    if k > |c| then []
    else
      match Lookup(c, StepKey(k))
      case Some(Str(s)) => [s] + StepsFrom(c, k + 1)
      case _ => []
  }

  /**
   * Decoding that reads the steps by their numbers: `entry` and `exit` as
   * before, then `step_1`, `step_2`, ... until the first number that is
   * missing. It fails on exactly the containers `init(from:)` fails on.
   */
  function DecodeInOrder(c: Container): (r: Result<RoomLiturgy, DecodeError>)
    ensures r.Ok? <==> DecodeSpec(c).Ok?
  {
    DecodeFailsIffNonString(c);
    if !AllStrings(c) then DecodeSpec(c)
    else
      var entry := match Lookup(c, "entry") case Some(Str(s)) => s case _ => "";
      var exit := match Lookup(c, "exit") case Some(Str(s)) => s case _ => "";
      Ok(RoomLiturgy(entry, StepsFrom(c, 1), exit))
  }

  /** A pair of a reordered encoding under `step_k` is the k-th step's pair. */
  lemma EncodedStepPair(l: RoomLiturgy, p: Container, i: nat, k: nat)
    requires multiset(p) == multiset(EncodeSpec(l))
    requires i < |p| && p[i].0 == StepKey(k)
    ensures 1 <= k <= |l.steps| && p[i].1 == Str(l.steps[k - 1])
  {
    var e := EncodeSpec(l);
    assert p[i] in multiset(e);
    var j :| 0 <= j < |e| && e[j] == p[i];
    StepKeyNotNamed(k);
    assert j >= 2;
    assert e[j] == (StepKey(j - 1), Str(l.steps[j - 2]));
    StepKeyInjective(j - 1, k);
  }

  /** In a reordered encoding `step_k` is present exactly for the numbered steps, and holds the k-th step. */
  lemma EncodedStepKey(l: RoomLiturgy, p: Container, k: nat)
    requires multiset(p) == multiset(EncodeSpec(l))
    requires 1 <= k
    ensures HasKey(p, StepKey(k)) <==> k <= |l.steps|
    ensures k <= |l.steps| ==> OnlyValue(p, StepKey(k), l.steps[k - 1])
  {
    var e := EncodeSpec(l);
    if k <= |l.steps| {
      assert e[k + 1] == (StepKey(k), Str(l.steps[k - 1]));
      assert e[k + 1] in multiset(p);
      forall i | 0 <= i < |p| && p[i].0 == StepKey(k) ensures p[i].1 == Str(l.steps[k - 1]) {
        EncodedStepPair(l, p, i, k);
      }
    } else {
      forall i | 0 <= i < |p| ensures p[i].0 != StepKey(k) {
        if p[i].0 == StepKey(k) {
          EncodedStepPair(l, p, i, k);
        }
      }
    }
  }

  lemma {:induction false} StepsFromEncoded(l: RoomLiturgy, p: Container, k: nat)
    requires multiset(p) == multiset(EncodeSpec(l))
    requires 1 <= k <= |l.steps| + 1
    ensures StepsFrom(p, k) == l.steps[k - 1..]
    decreases |l.steps| + 1 - k
  {
    assert |p| == |l.steps| + 2 by {
      assert |multiset(p)| == |multiset(EncodeSpec(l))|;
    }
    EncodedStepKey(l, p, k);
    if k <= |l.steps| {
      LookupOnly(p, StepKey(k), l.steps[k - 1]);
      StepsFromEncoded(l, p, k + 1);
      assert l.steps[k - 1..] == [l.steps[k - 1]] + l.steps[k..];
    }
  }

  /** decode(encode(l)) == l for every order of the encoded pairs. */
  lemma RoundTripInOrder(l: RoomLiturgy, p: Container)
    requires multiset(p) == multiset(EncodeSpec(l))
    ensures DecodeInOrder(p) == Ok(l)
  {
    RoundTripUpToOrder(l, p);
    DecodeFailsIffNonString(p);
    var e := EncodeSpec(l);
    assert e[0] in multiset(p) && e[1] in multiset(p);
    assert HasKey(p, "entry") && HasKey(p, "exit");
    forall i | 0 <= i < |p| ensures p[i] in e {
      assert p[i] in multiset(e);
    }
    forall i | 0 <= i < |p| && (p[i].0 == "entry" || p[i].0 == "exit")
      ensures p[i].0 == "entry" ==> p[i].1 == Str(l.entry)
      ensures p[i].0 == "exit" ==> p[i].1 == Str(l.exit)
    {
      EncodedPairs(l, p[i]);
    }
    LookupOnly(p, "entry", l.entry);
    LookupOnly(p, "exit", l.exit);
    StepsFromEncoded(l, p, 1);
  }
}
