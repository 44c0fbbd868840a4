/**
 * `EngineerService.swift`: the Engineer agent's chat log and the rules by
 * which a decoded action changes a room instance.
 *
 * The remote model, the JSON decoder and Firestore are parameters: `Reply`
 * is what `callGemini` produced, `decode` stands for `JSONDecoder` on the
 * extracted text, and `SaveOutcome` says whether the save succeeded. A save
 * that succeeds is recorded in `writes`; the local instance list is only
 * read, as in the source, which waits for Firestore to refresh it.
 */
module Engineer {
  import opened Text
  import Instances
  import Sessions
  import AgentJson

  // ---------------------------------------------------------------------
  // Decoded responses
  // ---------------------------------------------------------------------

  datatype InventoryItemData = InventoryItemData(name: string, status: Option<string>, isCritical: Option<bool>)

  datatype ActionData = ActionData(
    kind: string,
    definitionId: Option<string>,
    instanceId: Option<string>,
    variantName: Option<string>,
    inventory: Option<seq<InventoryItemData>>,
    constraint: Option<string>,
    health: Option<real>)

  datatype EngineerResponse = EngineerResponse(message: string, action: Option<ActionData>)

  datatype GeneratedInstance = GeneratedInstance(variantName: string, explanation: Option<string>)

  datatype Role = UserRole | EngineerRole

  datatype EngineerMessage = EngineerMessage(role: Role, content: string)

  /** What the remote call gave back: an error, data without a "text" string, or the text. */
  datatype Reply = Threw | NoText | Text(text: string)

  datatype SaveOutcome = Succeeds | Fails(description: string)

  /** A successful Firestore write. */
  datatype Write =
    | Created(definitionId: string, variantName: string, inventory: seq<string>, constraints: seq<string>)
    | Saved(instance: Instances.RoomInstance)

  // ---------------------------------------------------------------------
  // Action rules
  // ---------------------------------------------------------------------

  /** `roomInstances.first(where: { $0.id == instanceId })`. */
  function FindInstance(instances: seq<Instances.RoomInstance>, instanceId: string): (r: Option<nat>)
    ensures r.Some? ==> r.value < |instances| && instances[r.value].id == Some(instanceId)
    ensures r.Some? ==> forall j :: 0 <= j < r.value ==> instances[j].id != Some(instanceId)
    ensures r.None? ==> forall j :: 0 <= j < |instances| ==> instances[j].id != Some(instanceId)
  {
    if |instances| == 0 then None
    else if instances[0].id == Some(instanceId) then Some(0)
    else match FindInstance(instances[1..], instanceId)
      case Some(i) => Some(i + 1)
      case None => None
  }

  /** One inventory update: a missing or unrecognised status is Operational, a missing flag is false. */
  function ItemFrom(u: InventoryItemData): Instances.InventoryItem {
    var status := match Instances.ItemStatusFromRaw(u.status.GetOr("Operational"))
      case Some(st) => st
      case None => Instances.Operational;
    Instances.InventoryItem(u.name, status, u.isCritical.GetOr(false))
  }

  /** The inventory `update_inventory` builds: one item per update, in order. */
  function InventoryFrom(updates: seq<InventoryItemData>): seq<Instances.InventoryItem> {
    seq(|updates|, i requires 0 <= i < |updates| => ItemFrom(updates[i]))
  }

  /** The loop over `inventoryUpdates`. */
  method BuildInventory(updates: seq<InventoryItemData>) returns (inventory: seq<Instances.InventoryItem>)
    ensures inventory == InventoryFrom(updates)
  {
    inventory := [];
    var i := 0;
    while i < |updates|
      invariant 0 <= i <= |updates|
      invariant |inventory| == i
      invariant forall k :: 0 <= k < i ==> inventory[k] == ItemFrom(updates[k])
    {
      inventory := inventory + [ItemFrom(updates[i])];
      i := i + 1;
    }
  }

  /** `max(0, min(1, health))`. */
  function Clamp(health: real): real {
    if health > 1.0 then 1.0 else if health < 0.0 then 0.0 else health
  }

  /** The message after a successful health update, as written: the percentage of the value received. */
  function HealthMessage(health: real): string {
    "\U{2705} Updated health to " + IntToString(Sessions.Truncate(health * 100.0)) + "%"
  }

  /** The same message showing the percentage that was stored. */
  function StoredHealthMessage(health: real): string {
    HealthMessage(Clamp(health))
  }

  /** The replies and the write one action leads to. */
  datatype Effect = Effect(replies: seq<string>, write: Option<Write>)

  const NoEffect := Effect([], None)

  /** Either the write and the success reply, or only the failure reply. */
  function Saving(save: SaveOutcome, w: Write, success: string, failure: string): Effect {
    if save.Succeeds? then Effect([success], Some(w)) else Effect([failure], None)
  }

  /** What `executeAction` does for each action type. */
  function ActionEffect(action: ActionData, instances: seq<Instances.RoomInstance>, save: SaveOutcome): Effect {
    if action.kind == "create_instance" then
      if action.definitionId.None? || action.variantName.None? then NoEffect
      else
        var names := match action.inventory
          case Some(items) => seq(|items|, i requires 0 <= i < |items| => items[i].name)
          case None => [];
        var constraints := match action.constraint
          case Some(c) => [c]
          case None => [];
        var w := Created(action.definitionId.value, action.variantName.value, names, constraints);
        if save.Succeeds? then Effect(["\U{2705} Created instance: **" + action.variantName.value + "**"], Some(w))
        else Effect(["\U{274C} Failed to create instance: " + save.description], None)
    else if action.kind == "update_inventory" then
      if action.instanceId.None? || action.inventory.None? then NoEffect
      else match FindInstance(instances, action.instanceId.value)
        case None => NoEffect
        case Some(k) =>
          var inst := instances[k];
          var updated := inst.(extras := inst.extras.(inventory := InventoryFrom(action.inventory.value)));
          Saving(save, Saved(updated), "\U{2705} Updated inventory for **" + inst.variantName + "**",
            "\U{274C} Failed to update inventory")
    else if action.kind == "add_constraint" then
      if action.instanceId.None? || action.constraint.None? then NoEffect
      else match FindInstance(instances, action.instanceId.value)
        case None => NoEffect
        case Some(k) =>
          var inst := instances[k];
          var c := action.constraint.value;
          if c in inst.constraints then NoEffect
          else Saving(save, Saved(inst.(constraints := inst.constraints + [c])),
            "\U{2705} Added constraint: \"" + c + "\"", "\U{274C} Failed to add constraint")
    else if action.kind == "update_health" then
      if action.instanceId.None? || action.health.None? then NoEffect
      else match FindInstance(instances, action.instanceId.value)
        case None => NoEffect
        case Some(k) =>
          var inst := instances[k];
          // The reply reports the value received, not the one stored (see HealthMessageOverstates).
          Saving(save, Saved(inst.(healthScore := Clamp(action.health.value))),
            HealthMessage(action.health.value), "\U{274C} Failed to update health")
    else NoEffect
  }

  predicate KnownKind(kind: string) {
    kind in {"create_instance", "update_inventory", "add_constraint", "update_health"}
  }

  /** The action is about an instance id that no local instance carries. */
  predicate NoInstance(a: ActionData, instances: seq<Instances.RoomInstance>) {
    a.kind != "create_instance" && a.instanceId.Some? && FindInstance(instances, a.instanceId.value).None?
  }

  /** An action without the fields its type needs, or of a type the Engineer does not know, changes nothing. */
  predicate MissingFields(a: ActionData) {
    || !KnownKind(a.kind)
    || (a.kind == "create_instance" && (a.definitionId.None? || a.variantName.None?))
    || (a.kind == "update_inventory" && (a.instanceId.None? || a.inventory.None?))
    || (a.kind == "add_constraint" && (a.instanceId.None? || a.constraint.None?))
    || (a.kind == "update_health" && (a.instanceId.None? || a.health.None?))
  }

  /**
   * An action that lacks its fields, has an unknown type or names no local
   * instance changes nothing; an action that does something replies once
   * and writes exactly when the save succeeds.
   */
  lemma ActionEffectCases(action: ActionData, instances: seq<Instances.RoomInstance>, save: SaveOutcome)
    ensures MissingFields(action) ==> ActionEffect(action, instances, save) == NoEffect
    ensures var e := ActionEffect(action, instances, save);
      e != NoEffect ==> |e.replies| == 1 && (e.write.Some? <==> save.Succeeds?)
    ensures NoInstance(action, instances) ==> ActionEffect(action, instances, save) == NoEffect
  {
  }

  /** `update_health` stores the received health clamped into [0, 1], unchanged when already inside it. */
  lemma HealthStoredClamped(action: ActionData, instances: seq<Instances.RoomInstance>)
    requires action.kind == "update_health"
    ensures var e := ActionEffect(action, instances, Succeeds);
      e.write.Some? ==> (e.write.value.Saved? && 0.0 <= e.write.value.instance.healthScore <= 1.0 &&
        (0.0 <= action.health.value <= 1.0 ==> e.write.value.instance.healthScore == action.health.value))
  {
  }

  /** `add_constraint` on a duplicate-free list keeps it duplicate-free, and the constraint is then present. */
  lemma AddConstraintKeepsDistinct(action: ActionData, instances: seq<Instances.RoomInstance>)
    requires action.kind == "add_constraint"
    requires forall k :: 0 <= k < |instances| ==> Distinct(instances[k].constraints)
    ensures var e := ActionEffect(action, instances, Succeeds);
      e.write.Some? ==> (e.write.value.Saved? && Distinct(e.write.value.instance.constraints) &&
        action.constraint.value in e.write.value.instance.constraints)
  {
    var e := ActionEffect(action, instances, Succeeds);
    if e.write.Some? {
      var k := FindInstance(instances, action.instanceId.value).value;
      var cs := instances[k].constraints;
      var c := action.constraint.value;
      assert e.write.value.instance.constraints == cs + [c];
      forall i, j | 0 <= i < j < |cs + [c]| ensures (cs + [c])[i] != (cs + [c])[j] {
        if j == |cs| {
          assert (cs + [c])[i] == cs[i];
        }
      }
    }
  }

  predicate Distinct<T(==)>(s: seq<T>) {
    forall i, j :: 0 <= i < j < |s| ==> s[i] != s[j]
  }

  /**
   * `update_inventory` replaces the inventory with one item per update, in
   * order and under the update's name, and touches no other field.
   */
  lemma InventoryReplaced(action: ActionData, instances: seq<Instances.RoomInstance>)
    requires action.kind == "update_inventory"
    ensures var e := ActionEffect(action, instances, Succeeds);
      e.write.Some? ==> (e.write.value.Saved? &&
        var k := FindInstance(instances, action.instanceId.value).value;
        var items := e.write.value.instance.extras.inventory;
        e.write.value.instance == instances[k].(extras := instances[k].extras.(inventory := items)) &&
        |items| == |action.inventory.value| &&
        forall i :: 0 <= i < |items| ==> items[i].name == action.inventory.value[i].name)
  {
  }

  /** The status defaults: no status or an unknown one becomes Operational, a missing flag becomes false. */
  lemma ItemDefaults(u: InventoryItemData)
    ensures u.status.None? ==> ItemFrom(u).status == Instances.Operational
    ensures u.status.Some? && u.status.value !in {"Operational", "Missing", "Broken"} ==>
      ItemFrom(u).status == Instances.Operational
    ensures u.status.Some? && u.status.value == "Broken" ==> ItemFrom(u).status == Instances.Broken
    ensures ItemFrom(u).isCritical == (u.isCritical == Some(true))
  {
  }

  /**
   * The health reply as written reports the received value, not the stored
   * one: a health of 1.5 is stored as 1.0 but announced as 150%.
   */
  lemma HealthMessageOverstates()
    ensures Clamp(1.5) == 1.0
    ensures HealthMessage(1.5) == "\U{2705} Updated health to 150%"
    ensures HealthMessage(1.5) != StoredHealthMessage(1.5)
  {
    assert Sessions.Truncate(150.0) == 150;
    assert NatToString(150) == "150" by {
      assert NatToString(15) == "15" by {
        assert NatToString(1) == "1";
      }
    }
    assert Sessions.Truncate(100.0) == 100;
    assert NatToString(100) == "100" by {
      assert NatToString(10) == "10" by {
        assert NatToString(1) == "1";
      }
    }
    assert HealthMessage(1.5)[21] == '5';
    assert StoredHealthMessage(1.5)[21] == '0';
  }

  /** The corrected message shows a percentage between 0 and 100 that is the stored health, truncated. */
  lemma StoredHealthMessageInRange(health: real)
    ensures var p := Sessions.Truncate(Clamp(health) * 100.0);
      0 <= p <= 100 && StoredHealthMessage(health) == "\U{2705} Updated health to " + NatToString(p) + "%"
  {
  }

  // ---------------------------------------------------------------------
  // Service
  // ---------------------------------------------------------------------

  function FormatMessage(m: EngineerMessage): string {
    match m.role
    case UserRole => "User: " + m.content
    case EngineerRole => "Engineer: " + m.content
  }

  /** A context line gives its message back: the label names the role and the rest is the content. */
  lemma FormatMessageInjective(a: EngineerMessage, b: EngineerMessage)
    requires FormatMessage(a) == FormatMessage(b)
    ensures a == b
  {
    var line := FormatMessage(a);
    if a.role == b.role == UserRole {
      assert a.content == line[6..] == b.content;
    } else if a.role == b.role {
      assert a.content == line[10..] == b.content;
    } else {
      LabelInitial(a);
      LabelInitial(b);
    }
  }

  lemma LabelInitial(m: EngineerMessage)
    ensures |FormatMessage(m)| > 0 && FormatMessage(m)[0] == (if m.role == UserRole then 'U' else 'E')
  {
  }

  function Engineer(text: string): EngineerMessage {
    EngineerMessage(EngineerRole, text)
  }

  function EngineerAll(texts: seq<string>): seq<EngineerMessage> {
    seq(|texts|, i requires 0 <= i < |texts| => Engineer(texts[i]))
  }

  lemma EngineerAllCons(m: string, rs: seq<string>)
    ensures EngineerAll([m] + rs) == [Engineer(m)] + EngineerAll(rs)
  {
  }

  /** The messages a reply adds after the user's message, and the write its action leads to. */
  function ReplyEffect(reply: Reply, decode: string -> Option<EngineerResponse>,
                       instances: seq<Instances.RoomInstance>, save: SaveOutcome): Effect
    requires reply.Text? ==> AgentJson.Extractable(reply.text)
  {
    match reply
    case Threw => Effect(["Connection issue. Try again."], None)
    case NoText => NoEffect
    case Text(t) =>
      match AgentJson.ExtractJson(t)
      case Some(json) =>
        (match decode(json)
         case Some(response) => ResponseEffect(response, instances, save)
         case None => Effect([t], None))
      case None => Effect([t], None)
  }

  /** A reply text has the effect of its decoded response, or is shown as it is. */
  lemma TextEffect(t: string, decode: string -> Option<EngineerResponse>,
                   instances: seq<Instances.RoomInstance>, save: SaveOutcome)
    requires AgentJson.Extractable(t)
    ensures var json := AgentJson.ExtractJson(t);
      var response := if json.Some? then decode(json.value) else None;
      ReplyEffect(Text(t), decode, instances, save)
        == if response.Some? then ResponseEffect(response.value, instances, save) else Effect([t], None)
  {
  }

  /** A decoded reply: its message, then what its action leads to. */
  function ResponseEffect(response: EngineerResponse, instances: seq<Instances.RoomInstance>, save: SaveOutcome): Effect {
    match response.action
    case Some(a) =>
      var e := ActionEffect(a, instances, save);
      Effect([response.message] + e.replies, e.write)
    case None => Effect([response.message], None)
  }

  class EngineerService {
    var messages: seq<EngineerMessage>
    var isLoading: bool
    var generatedInstance: Option<GeneratedInstance>
    var pendingAction: Option<ActionData>
    /** `firebaseManager.roomInstances`, as last fetched. */
    var instances: seq<Instances.RoomInstance>
    /** The writes that reached Firestore, oldest first. */
    var writes: seq<Write>

    constructor (instances: seq<Instances.RoomInstance>)
      ensures this.instances == instances && messages == [] && writes == []
      ensures !isLoading && generatedInstance.None? && pendingAction.None?
    {
      this.instances := instances;
      messages := [];
      isLoading := false;
      generatedInstance := None;
      pendingAction := None;
      writes := [];
    }

    /** `executeAction`. */
    method ExecuteAction(action: ActionData, save: SaveOutcome)
      modifies this
      ensures var e := ActionEffect(action, old(instances), save);
        messages == old(messages) + EngineerAll(e.replies) &&
        writes == old(writes) + (if e.write.Some? then [e.write.value] else [])
      ensures instances == old(instances) && isLoading == old(isLoading)
      ensures generatedInstance == old(generatedInstance) && pendingAction == old(pendingAction)
    {
      var e := NoEffect;
      if action.kind == "create_instance" {
        if action.definitionId.None? || action.variantName.None? {
          return;
        }
        var names: seq<string> := [];
        if action.inventory.Some? {
          var items := action.inventory.value;
          names := seq(|items|, i requires 0 <= i < |items| => items[i].name);
        }
        var constraints: seq<string> := if action.constraint.Some? then [action.constraint.value] else [];
        if save.Succeeds? {
          writes := writes + [Created(action.definitionId.value, action.variantName.value, names, constraints)];
          messages := messages + [Engineer("\U{2705} Created instance: **" + action.variantName.value + "**")];
        } else {
          messages := messages + [Engineer("\U{274C} Failed to create instance: " + save.description)];
        }
      } else if action.kind == "update_inventory" {
        if action.instanceId.None? || action.inventory.None? {
          return;
        }
        var found := FindInstance(instances, action.instanceId.value);
        if found.Some? {
          var instance := instances[found.value];
          var newInventory := BuildInventory(action.inventory.value);
          instance := instance.(extras := instance.extras.(inventory := newInventory));
          Save(instance, save, "\U{2705} Updated inventory for **" + instance.variantName + "**",
            "\U{274C} Failed to update inventory");
        }
      } else if action.kind == "add_constraint" {
        if action.instanceId.None? || action.constraint.None? {
          return;
        }
        var found := FindInstance(instances, action.instanceId.value);
        if found.Some? {
          var instance := instances[found.value];
          var c := action.constraint.value;
          if c !in instance.constraints {
            instance := instance.(constraints := instance.constraints + [c]);
            Save(instance, save, "\U{2705} Added constraint: \"" + c + "\"", "\U{274C} Failed to add constraint");
          }
        }
      } else if action.kind == "update_health" {
        if action.instanceId.None? || action.health.None? {
          return;
        }
        var found := FindInstance(instances, action.instanceId.value);
        if found.Some? {
          var instance := instances[found.value];
          instance := instance.(healthScore := Clamp(action.health.value));
          Save(instance, save, HealthMessage(action.health.value), "\U{274C} Failed to update health");
        }
      }
    }

    /** `saveRoomInstance` followed by the success or failure reply. */
    method Save(instance: Instances.RoomInstance, save: SaveOutcome, success: string, failure: string)
      modifies this
      ensures var e := Saving(save, Saved(instance), success, failure);
        messages == old(messages) + EngineerAll(e.replies) &&
        writes == old(writes) + (if e.write.Some? then [e.write.value] else [])
      ensures instances == old(instances) && isLoading == old(isLoading)
      ensures generatedInstance == old(generatedInstance) && pendingAction == old(pendingAction)
    {
      if save.Succeeds? {
        writes := writes + [Saved(instance)];
        messages := messages + [Engineer(success)];
      } else {
        messages := messages + [Engineer(failure)];
      }
    }

    /**
     * `sendMessage`: the user's message is logged before anything else, the
     * conversation part of the prompt is the last six messages including it,
     * and the reply's messages follow. Loading is off again afterwards.
     */
    method SendMessage(text: string, reply: Reply, decode: string -> Option<EngineerResponse>, save: SaveOutcome)
      returns (conversation: string)
      requires reply.Text? ==> AgentJson.Extractable(reply.text)
      modifies this
      ensures var withUser := old(messages) + [EngineerMessage(UserRole, text)];
        var e := ReplyEffect(reply, decode, old(instances), save);
        conversation == Join(FormatAll(Suffix(withUser, 6)), "\n") &&
        messages == withUser + EngineerAll(e.replies) &&
        writes == old(writes) + (if e.write.Some? then [e.write.value] else [])
      ensures !isLoading && instances == old(instances)
      ensures generatedInstance == old(generatedInstance) && pendingAction == old(pendingAction)
    {
      messages := messages + [EngineerMessage(UserRole, text)];
      isLoading := true;
      conversation := Join(FormatAll(Suffix(messages, 6)), "\n");
      match reply {
        case Threw =>
          messages := messages + [Engineer("Connection issue. Try again.")];
        case NoText =>
        case Text(t) =>
          HandleText(t, decode, save);
      }
      isLoading := false;
    }

    /** The structured-or-plain handling of a reply text. */
    method HandleText(t: string, decode: string -> Option<EngineerResponse>, save: SaveOutcome)
      requires AgentJson.Extractable(t)
      modifies this
      ensures var e := ReplyEffect(Text(t), decode, old(instances), save);
        messages == old(messages) + EngineerAll(e.replies) &&
        writes == old(writes) + (if e.write.Some? then [e.write.value] else [])
      ensures isLoading == old(isLoading) && instances == old(instances)
      ensures generatedInstance == old(generatedInstance) && pendingAction == old(pendingAction)
    {
      var json := AgentJson.ExtractJson(t);
      var response := if json.Some? then decode(json.value) else None;
      TextEffect(t, decode, instances, save);
      if response.Some? {
        ApplyResponse(response.value, save);
      } else {
        messages := messages + [Engineer(t)];
      }
    }

    /** A decoded reply: its message is added, then its action is carried out. */
    method ApplyResponse(response: EngineerResponse, save: SaveOutcome)
      modifies this
      ensures var e := ResponseEffect(response, old(instances), save);
        messages == old(messages) + EngineerAll(e.replies) &&
        writes == old(writes) + (if e.write.Some? then [e.write.value] else [])
      ensures isLoading == old(isLoading) && instances == old(instances)
      ensures generatedInstance == old(generatedInstance) && pendingAction == old(pendingAction)
    {
      messages := messages + [Engineer(response.message)];
      if response.action.Some? {
        ghost var e := ActionEffect(response.action.value, instances, save);
        assert ResponseEffect(response, instances, save) == Effect([response.message] + e.replies, e.write);
        ExecuteAction(response.action.value, save);
        EngineerAllCons(response.message, e.replies);
      }
    }

    /** `clearMessages`. */
    method ClearMessages()
      modifies this
      ensures messages == [] && generatedInstance.None? && pendingAction.None?
      ensures instances == old(instances) && writes == old(writes) && isLoading == old(isLoading)
    {
      messages := [];
      generatedInstance := None;
      pendingAction := None;
    }
  }

  function FormatAll(ms: seq<EngineerMessage>): (r: seq<string>)
    ensures |r| == |ms| && forall i :: 0 <= i < |ms| ==> r[i] == FormatMessage(ms[i])
  {
    seq(|ms|, i requires 0 <= i < |ms| => FormatMessage(ms[i]))
  }

  /** The user's message is always the newest line of the conversation sent with it. */
  lemma ConversationEndsWithUser(history: seq<EngineerMessage>, text: string)
    ensures var recent := Suffix(history + [EngineerMessage(UserRole, text)], 6);
      0 < |recent| <= 6 && FormatAll(recent)[|recent| - 1] == "User: " + text
  {
  }
}
