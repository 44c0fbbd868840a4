/**
 * `RoomGuideService.swift`: the in-room guide's session (which instance it
 * is guiding), its message log, the greeting it opens with and the one
 * action it can take.
 *
 * The remote reply, the decoder and the Firestore save are parameters, as
 * for the other agents. An attached image is reduced to whether there is
 * one; its JPEG payload and the system prompt's wording are not modelled.
 */
module Guide {
  import opened Text
  import Instances
  import Definitions
  import AgentJson

  datatype Role = UserRole | GuideRole

  datatype GuideMessage = GuideMessage(role: Role, content: string)

  datatype ActionData = ActionData(kind: string, masteryDimensions: Option<seq<Instances.MasteryDimension>>)

  datatype GuideResponse = GuideResponse(message: string, action: Option<ActionData>)

  datatype Reply = Threw | NoText | Text(text: string)

  const ConnectionTrouble := "I'm having trouble connecting. Take a breath and focus on the present moment."
  const MasteryUpdated := "\U{2728} Mastery dimensions updated."
  const ImageQuestion := "What do you see in this image? Analyze it from your philosophical perspective."
  const GreetingClose := "I'm here to help you stay present. What brings you here right now?"

  /** `generateGreeting`. */
  function Greeting(instance: Instances.RoomInstance, definition: Definitions.RoomDefinition): string {
    var variantName := if instance.variantName == "" then "this space" else instance.variantName;
    "Welcome to " + definition.name + " \U{2014} " + variantName + ".\n\n" +
    instance.evocativeWhy.GetOr(definition.purpose) + "\n\n" + GreetingClose
  }

  /**
   * The greeting names the variant, or "this space" when it has no name;
   * its middle paragraph is the instance's `evocativeWhy` when there is
   * one, else the room's function; it closes with the standing question.
   */
  lemma GreetingParts(instance: Instances.RoomInstance, definition: Definitions.RoomDefinition)
    ensures var shown := if instance.variantName == "" then "this space" else instance.variantName;
      var head := "Welcome to " + definition.name + " \U{2014} " + shown + ".\n\n";
      var g := Greeting(instance, definition);
      IsPrefix(head, g) && IsSuffix("\n\n" + GreetingClose, g) &&
      g[|head|..|g| - |GreetingClose| - 2] == instance.evocativeWhy.GetOr(definition.purpose)
  {
    var shown := if instance.variantName == "" then "this space" else instance.variantName;
    var head := "Welcome to " + definition.name + " \U{2014} " + shown + ".\n\n";
    var why := instance.evocativeWhy.GetOr(definition.purpose);
    var close := "\n\n" + GreetingClose;
    assert Greeting(instance, definition) == head + why + close;
    ThreeParts(head, why, close);
  }

  /** The text logged for the user's message. */
  function DisplayText(text: string, hasImage: bool): string {
    if hasImage then "\U{1F4F7} " + (if text == "" then "[Image]" else text) else text
  }

  /** The user text sent to the model. */
  function PromptText(text: string, hasImage: bool): string {
    if text == "" && hasImage then ImageQuestion else text
  }

  /**
   * Without an image the user's words are shown and sent unchanged; with
   * one they are shown after a camera sign, "[Image]" standing in for no
   * words, and an empty message asks the model about the image.
   */
  lemma DisplayTextCases(text: string, hasImage: bool)
    ensures !hasImage ==> DisplayText(text, hasImage) == text && PromptText(text, hasImage) == text
    ensures hasImage ==> IsPrefix("\U{1F4F7} ", DisplayText(text, hasImage))
    ensures hasImage ==> DisplayText(text, hasImage)[2..] == (if text == "" then "[Image]" else text)
    ensures hasImage && text == "" ==> PromptText(text, hasImage) == ImageQuestion
    ensures text != "" ==> PromptText(text, hasImage) == text
  {
  }

  function FormatMessage(m: GuideMessage): string {
    match m.role
    case UserRole => "User: " + m.content
    case GuideRole => "Guide: " + m.content
  }

  /** A context line gives its message back: the label names the role and the rest is the content. */
  lemma FormatMessageInjective(a: GuideMessage, b: GuideMessage)
    requires FormatMessage(a) == FormatMessage(b)
    ensures a == b
  {
    var line := FormatMessage(a);
    if a.role == b.role == UserRole {
      assert a.content == line[6..] == b.content;
    } else if a.role == b.role {
      assert a.content == line[7..] == b.content;
    } else {
      LabelInitial(a);
      LabelInitial(b);
    }
  }

  lemma LabelInitial(m: GuideMessage)
    ensures |FormatMessage(m)| > 0 && FormatMessage(m)[0] == (if m.role == UserRole then 'U' else 'G')
  {
  }

  function FormatAll(ms: seq<GuideMessage>): (r: seq<string>)
    ensures |r| == |ms| && forall i :: 0 <= i < |ms| ==> r[i] == FormatMessage(ms[i])
  {
    seq(|ms|, i requires 0 <= i < |ms| => FormatMessage(ms[i]))
  }

  /** `buildConversationContext`: the last six messages, one per line. */
  function ConversationContext(messages: seq<GuideMessage>): string {
    Join(FormatAll(Suffix(messages, 6)), "\n")
  }

  /** The context shows at most six messages, the newest ones, each with its role. */
  lemma ContextIsRecent(messages: seq<GuideMessage>)
    ensures var shown := Suffix(messages, 6);
      |shown| == Min(|messages|, 6) && IsSuffixOf(shown, messages) &&
      ConversationContext(messages) == Join(FormatAll(shown), "\n")
  {
  }

  function Min(a: int, b: int): int {
    if a <= b then a else b
  }

  function Guide(text: string): GuideMessage {
    GuideMessage(GuideRole, text)
  }

  /** `roomInstances.first(where: { $0.id == instanceId })`. */
  function FindInstance(instances: seq<Instances.RoomInstance>, instanceId: string): (r: Option<nat>)
    ensures r.Some? ==> r.value < |instances| && instances[r.value].id == Some(instanceId)
    ensures r.Some? ==> forall j :: 0 <= j < r.value ==> instances[j].id != Some(instanceId)
    ensures r.None? ==> forall j :: 0 <= j < |instances| ==> instances[j].id != Some(instanceId)
  {
    if |instances| == 0 then None
    else if instances[0].id == Some(instanceId) then Some(0)
    else match FindInstance(instances[1..], instanceId)
      case Some(i) => Some(i + 1)
      case None => None
  }

  /** `executeAction`: the instance after `update_mastery`, if the action applies. */
  function MasteryUpdate(action: ActionData, instanceId: Option<string>, instances: seq<Instances.RoomInstance>)
    : (r: Option<Instances.RoomInstance>)
    ensures r.Some? ==> action.kind == "update_mastery" && instanceId.Some? && action.masteryDimensions.Some?
    ensures r.Some? ==> r.value.id == instanceId && r.value.extras.masteryDimensions == action.masteryDimensions.value
  {
    if instanceId.None? || action.kind != "update_mastery" || action.masteryDimensions.None? then None
    else match FindInstance(instances, instanceId.value)
      case Some(k) => Some(instances[k].(extras := instances[k].extras.(masteryDimensions := action.masteryDimensions.value)))
      case None => None
  }

  predicate OnlyDimensionsDiffer(a: Instances.RoomInstance, b: Instances.RoomInstance) {
    a == b.(extras := b.extras.(masteryDimensions := a.extras.masteryDimensions))
  }

  /** Only the mastery dimensions change; every other field of the instance is kept. */
  lemma MasteryUpdateKeepsRest(action: ActionData, instanceId: Option<string>, instances: seq<Instances.RoomInstance>)
    ensures var r := MasteryUpdate(action, instanceId, instances);
      r.Some? ==> exists k :: 0 <= k < |instances| && instances[k].id == instanceId && OnlyDimensionsDiffer(r.value, instances[k])
  {
    var r := MasteryUpdate(action, instanceId, instances);
    if r.Some? {
      var k := FindInstance(instances, instanceId.value).value;
      assert instances[k].id == instanceId;
    }
  }

  class RoomGuideService {
    var messages: seq<GuideMessage>
    var isLoading: bool
    var currentInstance: Option<Instances.RoomInstance>
    var currentDefinition: Option<Definitions.RoomDefinition>
    /** `FirebaseManager.shared.roomInstances`, as last fetched. */
    var instances: seq<Instances.RoomInstance>
    /** The instances whose save succeeded, oldest first. */
    var writes: seq<Instances.RoomInstance>

    constructor (instances: seq<Instances.RoomInstance>)
      ensures this.instances == instances && messages == [] && writes == [] && !isLoading
      ensures currentInstance.None? && currentDefinition.None?
    {
      this.instances := instances;
      messages := [];
      isLoading := false;
      currentInstance := None;
      currentDefinition := None;
      writes := [];
    }

    predicate Guiding()
      reads this
    {
      currentInstance.Some? && currentDefinition.Some?
    }

    /** `startGuiding`: the log is exactly the greeting for this room. */
    method StartGuiding(instance: Instances.RoomInstance, definition: Definitions.RoomDefinition)
      modifies this
      ensures currentInstance == Some(instance) && currentDefinition == Some(definition) && Guiding()
      ensures messages == [Guide(Greeting(instance, definition))]
      ensures isLoading == old(isLoading) && instances == old(instances) && writes == old(writes)
    {
      currentInstance := Some(instance);
      currentDefinition := Some(definition);
      messages := [];
      var greeting := Greeting(instance, definition);
      messages := messages + [Guide(greeting)];
    }

    /** `endGuiding`. */
    method EndGuiding()
      modifies this
      ensures currentInstance.None? && currentDefinition.None? && messages == [] && !Guiding()
      ensures isLoading == old(isLoading) && instances == old(instances) && writes == old(writes)
    {
      currentInstance := None;
      currentDefinition := None;
      messages := [];
    }

    /**
     * `executeAction`: with an instance id and an `update_mastery` action
     * carrying dimensions, the matching local instance gets them and is
     * saved; the reply follows whether or not the save (a `try?`) succeeds.
     */
    method ExecuteAction(action: ActionData, instanceId: Option<string>, saveSucceeds: bool)
      modifies this
      ensures var u := MasteryUpdate(action, instanceId, old(instances));
        messages == old(messages) + (if u.Some? then [Guide(MasteryUpdated)] else []) &&
        writes == old(writes) + (if u.Some? && saveSucceeds then [u.value] else [])
      ensures isLoading == old(isLoading) && instances == old(instances)
      ensures currentInstance == old(currentInstance) && currentDefinition == old(currentDefinition)
    {
      if instanceId.None? {
        return;
      }
      if action.kind == "update_mastery" {
        if action.masteryDimensions.None? {
          return;
        }
        var found := FindInstance(instances, instanceId.value);
        if found.Some? {
          var instance := instances[found.value];
          instance := instance.(extras := instance.extras.(masteryDimensions := action.masteryDimensions.value));
          if saveSucceeds {
            writes := writes + [instance];
          }
          messages := messages + [Guide(MasteryUpdated)];
        }
      }
    }

    /**
     * `sendMessage`: nothing happens unless a room is being guided. Otherwise
     * the display text is logged first, the context is built from the last
     * six messages including it, and `sent` is the prompt handed to the model.
     */
    method SendMessage(text: string, hasImage: bool, reply: Reply, decode: string -> Option<GuideResponse>,
                       saveSucceeds: bool)
      returns (sent: Option<string>)
      requires reply.Text? ==> AgentJson.Extractable(reply.text)
      modifies this
      ensures !old(Guiding()) ==> sent.None? && messages == old(messages) && writes == old(writes)
      ensures !old(Guiding()) ==> isLoading == old(isLoading)
      ensures old(Guiding()) ==> !isLoading
      ensures old(Guiding()) ==>
        var withUser := old(messages) + [GuideMessage(UserRole, DisplayText(text, hasImage))];
        var instanceId := old(currentInstance).value.id;
        sent == Some(ConversationContext(withUser) + "\n\nUser: " + PromptText(text, hasImage)) &&
        messages == withUser + ReplyMessages(reply, decode, instanceId, old(instances)) &&
        writes == old(writes) + ReplyWrite(reply, decode, instanceId, old(instances), saveSucceeds)
      ensures instances == old(instances)
      ensures currentInstance == old(currentInstance) && currentDefinition == old(currentDefinition)
    {
      if !Guiding() {
        return None;
      }
      var withUser := messages + [GuideMessage(UserRole, DisplayText(text, hasImage))];
      var prompt := ChatPrompt(withUser, text, hasImage);
      Exchange(text, hasImage, reply, decode, saveSucceeds);
      sent := Some(prompt);
    }

    /** `sendMessage` once a room is being guided: the log and the writes. */
    method Exchange(text: string, hasImage: bool, reply: Reply, decode: string -> Option<GuideResponse>,
                    saveSucceeds: bool)
      requires Guiding()
      requires reply.Text? ==> AgentJson.Extractable(reply.text)
      modifies this
      ensures !isLoading
      ensures var withUser := old(messages) + [GuideMessage(UserRole, DisplayText(text, hasImage))];
        var instanceId := old(currentInstance).value.id;
        messages == withUser + ReplyMessages(reply, decode, instanceId, old(instances)) &&
        writes == old(writes) + ReplyWrite(reply, decode, instanceId, old(instances), saveSucceeds)
      ensures instances == old(instances)
      ensures currentInstance == old(currentInstance) && currentDefinition == old(currentDefinition)
    {
      var instanceId := currentInstance.value.id;
      ghost var replies := ReplyMessages(reply, decode, instanceId, instances);
      ghost var written := ReplyWrite(reply, decode, instanceId, instances, saveSucceeds);
      messages := messages + [GuideMessage(UserRole, DisplayText(text, hasImage))];
      ghost var withUser := messages;
      isLoading := true;
      match reply {
        case Threw =>
          messages := messages + [Guide(ConnectionTrouble)];
          assert written == [];
        case NoText =>
          assert replies == [] && written == [];
        case Text(t) =>
          HandleText(t, decode, instanceId, saveSucceeds);
      }
      assert messages == withUser + replies;
      assert writes == old(writes) + written;
      isLoading := false;
    }

    /** The structured-or-plain handling of a reply text. */
    method HandleText(t: string, decode: string -> Option<GuideResponse>, instanceId: Option<string>,
                      saveSucceeds: bool)
      requires AgentJson.Extractable(t)
      modifies this
      ensures messages == old(messages) + ReplyMessages(Text(t), decode, instanceId, old(instances))
      ensures writes == old(writes) + ReplyWrite(Text(t), decode, instanceId, old(instances), saveSucceeds)
      ensures isLoading == old(isLoading) && instances == old(instances)
      ensures currentInstance == old(currentInstance) && currentDefinition == old(currentDefinition)
    {
      var response := StructuredReply(t, decode);
      if response.Some? {
        messages := messages + [Guide(response.value.message)];
        if response.value.action.Some? {
          ExecuteAction(response.value.action.value, instanceId, saveSucceeds);
        }
      } else {
        messages := messages + [Guide(t)];
      }
    }
  }

  /** The prompt `sendMessage` sends: the recent conversation, then the user's words. */
  method ChatPrompt(messages: seq<GuideMessage>, text: string, hasImage: bool) returns (prompt: string)
    ensures prompt == ConversationContext(messages) + "\n\nUser: " + PromptText(text, hasImage)
  {
    prompt := ConversationContext(messages) + "\n\nUser: " + PromptText(text, hasImage);
  }

  /** The guide messages a reply adds after the user's message. */
  function ReplyMessages(reply: Reply, decode: string -> Option<GuideResponse>, instanceId: Option<string>,
                         instances: seq<Instances.RoomInstance>): seq<GuideMessage>
    requires reply.Text? ==> AgentJson.Extractable(reply.text)
  {
    match reply
    case Threw => [Guide(ConnectionTrouble)]
    case NoText => []
    case Text(t) =>
      match StructuredReply(t, decode)
      case Some(response) =>
        [Guide(response.message)] +
        (if response.action.Some? && MasteryUpdate(response.action.value, instanceId, instances).Some?
         then [Guide(MasteryUpdated)] else [])
      case None => [Guide(t)]
  }

  /** The instance a reply's action saves, if the save succeeds. */
  function ReplyWrite(reply: Reply, decode: string -> Option<GuideResponse>, instanceId: Option<string>,
                      instances: seq<Instances.RoomInstance>, saveSucceeds: bool): seq<Instances.RoomInstance>
    requires reply.Text? ==> AgentJson.Extractable(reply.text)
  {
    match reply
    case Text(t) =>
      (match StructuredReply(t, decode)
       case Some(response) =>
         if response.action.Some? && saveSucceeds then
           match MasteryUpdate(response.action.value, instanceId, instances)
           case Some(u) => [u]
           case None => []
         else []
       case None => [])
    case _ => []
  }

  /**
   * A reply adds one guide message, plus the mastery notice when its action
   * applied; a write happens only for an applied action whose save succeeds.
   */
  lemma ReplyShape(reply: Reply, decode: string -> Option<GuideResponse>, instanceId: Option<string>,
                   instances: seq<Instances.RoomInstance>, saveSucceeds: bool)
    requires reply.Text? ==> AgentJson.Extractable(reply.text)
    ensures reply.NoText? ==> ReplyMessages(reply, decode, instanceId, instances) == []
    ensures !reply.NoText? ==> 1 <= |ReplyMessages(reply, decode, instanceId, instances)| <= 2
    ensures |ReplyWrite(reply, decode, instanceId, instances, saveSucceeds)| <= 1
    ensures ReplyWrite(reply, decode, instanceId, instances, saveSucceeds) != [] ==>
      saveSucceeds && |ReplyMessages(reply, decode, instanceId, instances)| == 2 &&
      ReplyMessages(reply, decode, instanceId, instances)[1] == Guide(MasteryUpdated)
  {
  }

  /** The decoded response, when the reply holds a braced block that decodes. */
  function StructuredReply(t: string, decode: string -> Option<GuideResponse>): Option<GuideResponse>
    requires AgentJson.Extractable(t)
  {
    match AgentJson.ExtractJson(t)
    case Some(json) => decode(json)
    case None => None
  }
}
