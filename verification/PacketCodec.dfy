/** The wire forms of task packets and execution profiles in `native_tura.py`. */
module PacketCodec {
  import opened Records

  // ---------------------------------------------------------------- JSON

  /** The member names the codecs know. */
  datatype Name =
    | MissionId | MissionRevision | MissionMode | PredicateKey | RouteId | ExecutorId | Scope
    | ScopeVersions | ExpectedDelta | AbandonIf | RecoveryBudget | DestinationKey | PacketIdKey
    | ContextBindingKey
    | CoordinatorId | ThreadId
    | TaskId | ArtifactRoot | ContextPath | ContextSha | JspacePath | JspaceSha | GenerationId
    | InputFingerprint
    | SchemaVersion | Model | Thinking | TargetType | ProjectId | Environment | DirectoryName
    | SelectionPolicy | ProfileSha
    | CallbackId | TaskName | CapsuleSha | MissionText | RouteText | PacketKey | ProfileKey
    | MaterialKey

  /** A JSON value; `unknown` holds the member names outside `Name`. */
  datatype Json =
    | JNull
    | JBool(flag: bool)
    | JInt(number: int)
    | JText(text: string)
    | JList(items: seq<Json>)
    | JObject(members: map<Name, Json>, unknown: set<string>)

  predicate ExactKeys(v: Json, keys: set<Name>) {
    v.JObject? && v.members.Keys == keys && v.unknown == {}
  }

  /** `NativeTuraPacketError` codes, and the `ValueError` of a record's own constructor. */
  datatype Refusal =
    | PacketShapeInvalid | ContextBindingInvalid | PacketIdentityMismatch | ConstructorError
    | ProfileShapeInvalid | ProfileVersionUnsupported | SelectionPolicyInvalid
    | ReasoningEffortUnsupported | InheritValuesForbidden | TargetInvalid | ProfileIdentityMismatch
    | NotFound | MembersInvalid | RevisionConflict | RevisionStale | MemberMutable | JsonInvalid
    | CapsuleVersionUnsupported | TaskNameMismatch | ContextMismatch | PathMismatch
    | CallbackMismatch | CapsuleIdentityMismatch | LegacyFilenameUnsupported | ContextRejected

  datatype Loaded<+T> = Ok(value: T) | Refused(code: Refusal)

  function TextAt(v: Json): Option<string> {
    if v.JText? && NonBlank(v.text) then Some(v.text) else None
  }

  function IntAt(v: Json): Option<int> { if v.JInt? then Some(v.number) else None }

  predicate Sha256Text(s: string) {
    |s| == 64 && forall i :: 0 <= i < |s| ==> '0' <= s[i] <= '9' || 'a' <= s[i] <= 'f'
  }

  function ShaAt(v: Json): Option<string> {
    if v.JText? && Sha256Text(v.text) then Some(v.text) else None
  }

  // ---------------------------------------------------------------- lists

  function TextsAt(items: seq<Json>): (r: Option<seq<string>>) {
    if |items| == 0 then Some([])
    else
      var rest := TextsAt(items[1..]);
      if TextAt(items[0]).Some? && rest.Some? then Some([items[0].text] + rest.value) else None
  }

  function TextList(texts: seq<string>): (items: seq<Json>)
    ensures |items| == |texts|
    ensures forall i :: 0 <= i < |texts| ==> items[i] == JText(texts[i])
  {
    seq(|texts|, i requires 0 <= i < |texts| => JText(texts[i]))
  }

  predicate AllNonBlank(texts: seq<string>) { forall i :: 0 <= i < |texts| ==> NonBlank(texts[i]) }

  lemma {:induction false} TextsReadIff(items: seq<Json>, texts: seq<string>)
    ensures TextsAt(items) == Some(texts) <==> items == TextList(texts) && AllNonBlank(texts)
  {
    if |items| > 0 {
      var rest := if |texts| > 0 then texts[1..] else [];
      TextsReadIff(items[1..], rest);
      if TextsAt(items) == Some(texts) {
        assert texts[1..] == TextsAt(items[1..]).value;
        assert items == [items[0]] + items[1..];
        assert TextList(texts) == [JText(texts[0])] + TextList(rest);
        assert forall i :: 0 < i < |texts| ==> texts[i] == rest[i - 1];
      }
      if items == TextList(texts) && AllNonBlank(texts) {
        assert items[1..] == TextList(rest);
        assert texts == [texts[0]] + rest;
      }
    }
  }

  /** `[scope, revision]` pairs. */
  function VersionAt(v: Json): Option<(string, int)> {
    if v.JList? && |v.items| == 2 && TextAt(v.items[0]).Some? && IntAt(v.items[1]).Some?
    then Some((v.items[0].text, v.items[1].number)) else None
  }

  function VersionJson(v: (string, int)): Json { JList([JText(v.0), JInt(v.1)]) }

  lemma VersionReadIff(v: Json, pair: (string, int))
    ensures VersionAt(v) == Some(pair) <==> v == VersionJson(pair) && NonBlank(pair.0)
  {
  }

  function VersionsAt(items: seq<Json>): (r: Option<seq<(string, int)>>) {
    if |items| == 0 then Some([])
    else
      var rest := VersionsAt(items[1..]);
      if VersionAt(items[0]).Some? && rest.Some? then Some([VersionAt(items[0]).value] + rest.value)
      else None
  }

  function VersionList(versions: seq<(string, int)>): (items: seq<Json>)
    ensures |items| == |versions|
    ensures forall i :: 0 <= i < |versions| ==> items[i] == VersionJson(versions[i])
  {
    seq(|versions|, i requires 0 <= i < |versions| => VersionJson(versions[i]))
  }

  predicate VersionsNamed(versions: seq<(string, int)>) {
    forall i :: 0 <= i < |versions| ==> NonBlank(versions[i].0)
  }

  lemma VersionListCons(v: (string, int), rest: seq<(string, int)>)
    ensures VersionList([v] + rest) == [VersionJson(v)] + VersionList(rest)
  {
  }

  lemma {:induction false} VersionsReadIff(items: seq<Json>, versions: seq<(string, int)>)
    ensures VersionsAt(items) == Some(versions)
       <==> items == VersionList(versions) && VersionsNamed(versions)
  {
    hide VersionAt, VersionJson, NonBlank, VersionList, VersionsNamed;
    if |items| == 0 || |versions| == 0 {
      NoVersions(items, versions);
    } else {
      var v, rest := versions[0], versions[1..];
      assert versions == [v] + rest && items == [items[0]] + items[1..];
      VersionsReadIff(items[1..], rest);
      VersionReadIff(items[0], v);
      VersionListCons(v, rest);
      NamedCons(v, rest);
    }
  }

  lemma NamedCons(v: (string, int), rest: seq<(string, int)>)
    ensures VersionsNamed([v] + rest) <==> NonBlank(v.0) && VersionsNamed(rest)
  {
    hide NonBlank;
    if VersionsNamed([v] + rest) {
      assert ([v] + rest)[0] == v;
      assert forall i :: 0 <= i < |rest| ==> ([v] + rest)[i + 1] == rest[i];
    }
  }

  lemma NoVersions(items: seq<Json>, versions: seq<(string, int)>)
    requires |items| == 0 || |versions| == 0
    ensures VersionsAt(items) == Some(versions)
       <==> items == VersionList(versions) && VersionsNamed(versions)
  {
    hide NonBlank;
  }

  // ---------------------------------------------------------------- naming

  datatype ProfileVersion = ProfileV1 | ProfileV2

  /** A profile after its constructor has filled in the defaults. */
  datatype Profile = Profile(version: ProfileVersion, policy: string, model: Option<string>,
                             thinking: Option<string>, targetType: string,
                             projectId: Option<string>, environment: Option<string>,
                             directoryName: Option<string>)

  datatype CallbackPayload =
    CallbackPayload(taskName: string, mission: string, route: string, packetId: string,
                    parentThreadId: string, profileSha: Option<string>)

  /** The texts of content addresses. */
  datatype Names = Names(packet: PacketBody -> string, profile: Profile -> string,
                         callback: CallbackPayload -> string, capsule: map<Name, Json> -> string)

  function PacketIdText(names: Names, id: PacketId): string {
    match id case Of(b) => names.packet(b) case Raw(t) => t
  }

  // ---------------------------------------------------------------- context bindings

  predicate IsBindingKey(k: Name) {
    || k.TaskId? || k.ArtifactRoot? || k.ContextPath? || k.ContextSha? || k.JspacePath?
    || k.JspaceSha? || k.GenerationId? || k.InputFingerprint?
  }

  function BindingKeys(): set<Name> { set k: Name | IsBindingKey(k) }

  function BindingMember(b: ContextBinding, k: Name): string
    requires IsBindingKey(k)
  {
    match k
    case TaskId => b.taskId
    case ArtifactRoot => b.artifactRoot
    case ContextPath => b.contextPath
    case ContextSha => b.contextSha256
    case JspacePath => b.jspacePath
    case JspaceSha => b.jspaceSha256
    case GenerationId => b.generationId
    case InputFingerprint => b.inputFingerprint
  }

  function EncodeBinding(b: ContextBinding): Json {
    JObject(map k | k in BindingKeys() :: JText(BindingMember(b, k)), {})
  }

  function DecodeBinding(v: Json): Loaded<ContextBinding> {
    if !v.JObject? then Refused(ContextBindingInvalid)
    else if !ExactKeys(v, BindingKeys()) then Refused(PacketShapeInvalid)
    else
      var m := v.members;
      var task, root, path := TextAt(m[TaskId]), TextAt(m[ArtifactRoot]), TextAt(m[ContextPath]);
      var jspace, generation := TextAt(m[JspacePath]), TextAt(m[GenerationId]);
      var sha, jsha, input := ShaAt(m[ContextSha]), ShaAt(m[JspaceSha]), ShaAt(m[InputFingerprint]);
      if task.None? || root.None? || path.None? || jspace.None? || generation.None?
      then Refused(PacketShapeInvalid)
      else if sha.None? || jsha.None? || input.None? then Refused(ContextBindingInvalid)
      else Ok(ContextBinding(task.value, root.value, path.value, sha.value, jspace.value, jsha.value,
                             generation.value, input.value))
  }

  /** What `TaskContextBinding.__post_init__` accepts. */
  predicate BindingWellFormed(b: ContextBinding) {
    && NonBlank(b.taskId) && NonBlank(b.artifactRoot) && NonBlank(b.contextPath)
    && NonBlank(b.jspacePath) && NonBlank(b.generationId)
    && Sha256Text(b.contextSha256) && Sha256Text(b.jspaceSha256) && Sha256Text(b.inputFingerprint)
  }

  lemma DecodesBindingIff(v: Json, b: ContextBinding)
    ensures DecodeBinding(v) == Ok(b) <==> v == EncodeBinding(b) && BindingWellFormed(b)
  {
    hide NonBlank, Sha256Text;
    if DecodeBinding(v) == Ok(b) { assert v.members == EncodeBinding(b).members; }
    if v == EncodeBinding(b) && BindingWellFormed(b) { assert v.members.Keys == BindingKeys(); }
  }

  // ---------------------------------------------------------------- task packets

  predicate IsPacketKey(k: Name) {
    || k.MissionId? || k.MissionRevision? || k.MissionMode? || k.PredicateKey? || k.RouteId?
    || k.ExecutorId? || k.Scope? || k.ScopeVersions? || k.ExpectedDelta? || k.AbandonIf?
    || k.RecoveryBudget? || k.DestinationKey? || k.PacketIdKey?
  }

  predicate Whole(m: map<Name, Json>) {
    && MissionId in m && MissionRevision in m && MissionMode in m && PredicateKey in m
    && RouteId in m && ExecutorId in m && Scope in m && ScopeVersions in m && ExpectedDelta in m
    && AbandonIf in m && RecoveryBudget in m && DestinationKey in m && PacketIdKey in m
  }

  function PacketKeys(bound: bool): set<Name> {
    set k: Name | IsPacketKey(k) || (bound && k.ContextBindingKey?)
  }

  function DestinationJson(d: Destination): Json {
    JObject(map[CoordinatorId := JText(d.coordinatorId), ThreadId := JText(d.threadId)], {})
  }

  function DestinationAt(v: Json): Option<Destination> {
    if !ExactKeys(v, {CoordinatorId, ThreadId}) then None
    else if TextAt(v.members[CoordinatorId]).None? || TextAt(v.members[ThreadId]).None? then None
    else Some(Destination(v.members[CoordinatorId].text, v.members[ThreadId].text))
  }

  lemma DestinationReadIff(v: Json, d: Destination)
    ensures DestinationAt(v) == Some(d)
       <==> v == DestinationJson(d) && NonBlank(d.coordinatorId) && NonBlank(d.threadId)
  {
  }

  function PacketMember(names: Names, p: TaskPacket, k: Name): Json
    requires IsPacketKey(k)
  {
    var b := p.body;
    match k
    case MissionId => JText(b.missionId)
    case MissionRevision => JInt(b.missionRevision)
    case MissionMode => JText(b.missionMode)
    case PredicateKey => JText(b.predicateKey)
    case RouteId => JText(b.routeId)
    case ExecutorId => JText(b.executorId)
    case Scope => JList(TextList(b.scope))
    case ScopeVersions => JList(VersionList(b.scopeVersions))
    case ExpectedDelta => JText(b.expectedDelta)
    case AbandonIf => JText(b.abandonIf)
    case RecoveryBudget => JInt(b.recoveryBudget)
    case DestinationKey => DestinationJson(b.destination)
    case PacketIdKey => JText(PacketIdText(names, p.id))
  }

  function EncodePacket(names: Names, p: TaskPacket): Json {
    JObject(map k | k in PacketKeys(p.body.context.Some?) ::
              if k == ContextBindingKey
              then EncodeBinding(p.body.context.value) else PacketMember(names, p, k), {})
  }

  /** The packet's plain fields, when every one of them has its type. */
  function FieldsAt(m: map<Name, Json>, context: Option<ContextBinding>): (r: Option<PacketBody>)
    requires Whole(m)
  {
    var mission, mode := TextAt(m[MissionId]), TextAt(m[MissionMode]);
    var key, route := TextAt(m[PredicateKey]), TextAt(m[RouteId]);
    var executor, delta := TextAt(m[ExecutorId]), TextAt(m[ExpectedDelta]);
    var abandon := TextAt(m[AbandonIf]);
    var revision, budget := IntAt(m[MissionRevision]), IntAt(m[RecoveryBudget]);
    var scope := if m[Scope].JList? then TextsAt(m[Scope].items) else None;
    var versions := if m[ScopeVersions].JList? then VersionsAt(m[ScopeVersions].items) else None;
    var destination := DestinationAt(m[DestinationKey]);
    if || mission.None? || mode.None? || key.None? || route.None? || executor.None?
       || delta.None? || abandon.None? || revision.None? || budget.None? || scope.None?
       || versions.None? || destination.None?
    then None
    else Some(PacketBody(mission.value, revision.value, mode.value, key.value, route.value,
                         executor.value, scope.value, versions.value, delta.value, abandon.value,
                         budget.value, destination.value, context))
  }

  /** What is read before the context binding: the shape of the destination and both lists. */
  predicate HeadAt(m: map<Name, Json>)
    requires Whole(m)
  {
    && ExactKeys(m[DestinationKey], {CoordinatorId, ThreadId})
    && m[Scope].JList? && TextsAt(m[Scope].items).Some?
    && m[ScopeVersions].JList? && VersionsAt(m[ScopeVersions].items).Some?
  }

  /** `_decode_task_packet`. */
  function DecodePacket(names: Names, v: Json): Loaded<TaskPacket> {
    var bound := v.JObject? && ContextBindingKey in v.members;
    if !ExactKeys(v, PacketKeys(bound)) then Refused(PacketShapeInvalid)
    else if bound && v.members[ContextBindingKey].JNull? then Refused(ContextBindingInvalid)
    else
      var fields := FieldsAt(v.members, None);
      var binding := if bound then DecodeBinding(v.members[ContextBindingKey]) else Refused(NotFound);
      if !HeadAt(v.members) then Refused(PacketShapeInvalid)
      else if bound && !binding.Ok? then Refused(binding.code)
      else if fields.None? then Refused(PacketShapeInvalid)
      else
        var b := fields.value.(context := if bound then Some(binding.value) else None);
        if b.recoveryBudget < 0 then Refused(ConstructorError)
        else if v.members[PacketIdKey] != JText(names.packet(b)) then Refused(PacketIdentityMismatch)
        else Ok(Seal(b))
  }

  /** Every text of the packet is non-blank. */
  predicate PacketTexts(b: PacketBody) {
    && NonBlank(b.missionId) && NonBlank(b.missionMode) && NonBlank(b.predicateKey)
    && NonBlank(b.routeId) && NonBlank(b.executorId) && NonBlank(b.expectedDelta)
    && NonBlank(b.abandonIf) && AllNonBlank(b.scope) && VersionsNamed(b.scopeVersions)
    && NonBlank(b.destination.coordinatorId) && NonBlank(b.destination.threadId)
  }

  /** A packet that survives its own wire form. */
  predicate Decodable(p: TaskPacket) {
    && p.Authentic() && p.body.recoveryBudget >= 0 && PacketTexts(p.body)
    && (p.body.context.Some? ==> BindingWellFormed(p.body.context.value))
  }

  lemma FieldsReadIff(names: Names, m: map<Name, Json>, p: TaskPacket)
    requires Whole(m)
    ensures FieldsAt(m, None) == Some(p.body.(context := None))
       <==> && PacketTexts(p.body)
            && forall k: Name :: IsPacketKey(k) && k != PacketIdKey ==> m[k] == PacketMember(names, p, k)
  {
    hide NonBlank, TextList, VersionList, TextsAt, VersionsAt, DestinationAt, DestinationJson,
         AllNonBlank, VersionsNamed, PacketIdText;
    var b := p.body;
    DestinationReadIff(m[DestinationKey], b.destination);
    if m[Scope].JList? { TextsReadIff(m[Scope].items, b.scope); }
    if m[ScopeVersions].JList? { VersionsReadIff(m[ScopeVersions].items, b.scopeVersions); }
    TextsReadIff(TextList(b.scope), b.scope);
    VersionsReadIff(VersionList(b.scopeVersions), b.scopeVersions);
    FieldsReadFields(names, m, p);
  }

  lemma FieldsReadFields(names: Names, m: map<Name, Json>, p: TaskPacket)
    requires Whole(m)
    ensures (forall k: Name :: IsPacketKey(k) && k != PacketIdKey ==> m[k] == PacketMember(names, p, k))
       <==> && m[MissionId] == JText(p.body.missionId) && m[MissionRevision] == JInt(p.body.missionRevision)
            && m[MissionMode] == JText(p.body.missionMode) && m[PredicateKey] == JText(p.body.predicateKey)
            && m[RouteId] == JText(p.body.routeId) && m[ExecutorId] == JText(p.body.executorId)
            && m[Scope] == JList(TextList(p.body.scope))
            && m[ScopeVersions] == JList(VersionList(p.body.scopeVersions))
            && m[ExpectedDelta] == JText(p.body.expectedDelta) && m[AbandonIf] == JText(p.body.abandonIf)
            && m[RecoveryBudget] == JInt(p.body.recoveryBudget)
            && m[DestinationKey] == DestinationJson(p.body.destination)
  {
    hide TextList, VersionList, DestinationJson, PacketIdText;
    assert PacketMember(names, p, MissionId) == JText(p.body.missionId);
    assert PacketMember(names, p, MissionRevision) == JInt(p.body.missionRevision);
    assert PacketMember(names, p, MissionMode) == JText(p.body.missionMode);
    assert PacketMember(names, p, PredicateKey) == JText(p.body.predicateKey);
    assert PacketMember(names, p, RouteId) == JText(p.body.routeId);
    assert PacketMember(names, p, ExecutorId) == JText(p.body.executorId);
    assert PacketMember(names, p, Scope) == JList(TextList(p.body.scope));
    assert PacketMember(names, p, ScopeVersions) == JList(VersionList(p.body.scopeVersions));
    assert PacketMember(names, p, ExpectedDelta) == JText(p.body.expectedDelta);
    assert PacketMember(names, p, AbandonIf) == JText(p.body.abandonIf);
    assert PacketMember(names, p, RecoveryBudget) == JInt(p.body.recoveryBudget);
    assert PacketMember(names, p, DestinationKey) == DestinationJson(p.body.destination);
  }

  lemma EncodedMembers(names: Names, p: TaskPacket)
    ensures var v := EncodePacket(names, p);
      && ExactKeys(v, PacketKeys(p.body.context.Some?))
      && (ContextBindingKey in v.members <==> p.body.context.Some?)
      && (forall k: Name :: IsPacketKey(k) ==> k in v.members && v.members[k] == PacketMember(names, p, k))
      && (p.body.context.Some? ==> v.members[ContextBindingKey] == EncodeBinding(p.body.context.value))
  {
  }

  lemma FieldsHaveHead(m: map<Name, Json>)
    requires Whole(m)
    ensures FieldsAt(m, None).Some? ==> HeadAt(m)
  {
  }

  /** The decoder's steps, each as what it demands of the wire value. */
  lemma DecodeShape(names: Names, v: Json, p: TaskPacket)
    ensures DecodePacket(names, v) == Ok(p)
       <==> && ExactKeys(v, PacketKeys(p.body.context.Some?)) && p.Authentic()
            && FieldsAt(v.members, None) == Some(p.body.(context := None))
            && (p.body.context.Some? ==>
                  DecodeBinding(v.members[ContextBindingKey]) == Ok(p.body.context.value))
            && p.body.recoveryBudget >= 0
            && v.members[PacketIdKey] == JText(names.packet(p.body))
  {
    hide FieldsAt, DecodeBinding, HeadAt;
    if v.JObject? && Whole(v.members) {
      FieldsHaveHead(v.members);
      FieldsHaveNoContext(v.members);
    }
    if v.JObject? && ContextBindingKey in v.members { NullIsNoBinding(v.members[ContextBindingKey]); }
  }

  lemma NullIsNoBinding(v: Json)
    ensures v.JNull? ==> !DecodeBinding(v).Ok?
  {
  }

  lemma FieldsHaveNoContext(m: map<Name, Json>)
    requires Whole(m)
    ensures FieldsAt(m, None).Some? ==> FieldsAt(m, None).value.context == None
  {
  }

  lemma SameObject(v: Json, w: Json, bound: bool)
    requires ExactKeys(v, PacketKeys(bound)) && ExactKeys(w, PacketKeys(bound))
    requires forall k: Name :: IsPacketKey(k) ==> v.members[k] == w.members[k]
    requires bound ==> v.members[ContextBindingKey] == w.members[ContextBindingKey]
    ensures v == w
  {
  }

  /** Exactly the wire forms of decodable packets decode, each to its own packet. */
  lemma DecodesPacketIff(names: Names, v: Json, p: TaskPacket)
    ensures DecodePacket(names, v) == Ok(p) <==> v == EncodePacket(names, p) && Decodable(p)
  {
    hide PacketMember, EncodeBinding, DecodeBinding, BindingWellFormed, PacketTexts, FieldsAt,
         EncodePacket, DecodePacket;
    DecodeShape(names, v, p);
    EncodedMembers(names, p);
    var w := EncodePacket(names, p);
    IdMember(names, p);
    FieldsReadIff(names, w.members, p);
    if ExactKeys(v, PacketKeys(p.body.context.Some?)) {
      FieldsReadIff(names, v.members, p);
      if p.body.context.Some? {
        DecodesBindingIff(v.members[ContextBindingKey], p.body.context.value);
      }
      if DecodePacket(names, v) == Ok(p) { SameObject(v, w, p.body.context.Some?); }
    }
  }

  lemma IdMember(names: Names, p: TaskPacket)
    ensures PacketMember(names, p, PacketIdKey) == JText(PacketIdText(names, p.id))
  {
  }

  // ---------------------------------------------------------------- execution profiles

  /** The arguments of the profile constructor. */
  datatype ProfileArgs =
    ProfileArgs(version: string, policy: Option<string>, model: Option<string>,
                thinking: Option<string>, targetType: string, projectId: Option<string>,
                environment: Option<string>, directoryName: Option<string>)

  const PROFILE_V1 := "native-tura-execution-profile/v1"
  const PROFILE_V2 := "native-tura-execution-profile/v2"
  const DEFAULT_THINKING := "max"

  function VersionText(v: ProfileVersion): string {
    match v case ProfileV1 => PROFILE_V1 case ProfileV2 => PROFILE_V2
  }

  /** The policy the constructor settles on, before it is checked. */
  function PolicyOf(a: ProfileArgs): Option<string> {
    if a.version == PROFILE_V1 then
      if a.policy.None? || a.policy.value == "pinned" then Some("pinned") else None
    else if a.policy.Some? then a.policy
    else Some(if a.model.Some? || a.thinking.Some? then "preferred" else "inherit")
  }

  /** `self.thinking or NATIVE_TURA_REASONING_EFFORT`. */
  function ThinkingOf(a: ProfileArgs): string {
    if a.thinking.Some? && a.thinking.value != "" then a.thinking.value else DEFAULT_THINKING
  }

  predicate KnownEffort(t: string) {
    t == "low" || t == "medium" || t == "high" || t == "xhigh" || t == "max"
  }

  predicate KnownPolicy(t: string) { t == "inherit" || t == "preferred" || t == "pinned" }

  /** The first fault of the target fields. */
  function TargetFault(a: ProfileArgs): Option<Refusal> {
    if a.targetType == "projectless" then
      if a.projectId.Some? || a.environment.Some? then Some(TargetInvalid)
      else if a.directoryName.Some? && !NonBlank(a.directoryName.value) then Some(PacketShapeInvalid)
      else None
    else if a.targetType == "project" then
      if a.projectId.None? || !NonBlank(a.projectId.value) then Some(PacketShapeInvalid)
      else if a.environment != Some("local") && a.environment != Some("worktree")
      then Some(TargetInvalid)
      else if a.directoryName.Some? then Some(TargetInvalid) else None
    else Some(TargetInvalid)
  }

  /** `NativeTuraExecutionProfile.__post_init__`. */
  function MakeProfile(a: ProfileArgs): Loaded<Profile> {
    var policy := PolicyOf(a);
    if a.version != PROFILE_V1 && a.version != PROFILE_V2 then Refused(ProfileVersionUnsupported)
    else if policy.None? || !KnownPolicy(policy.value) then Refused(SelectionPolicyInvalid)
    else if policy.value != "inherit" && (a.model.None? || !NonBlank(a.model.value))
    then Refused(PacketShapeInvalid)
    else if policy.value != "inherit" && !KnownEffort(ThinkingOf(a))
    then Refused(ReasoningEffortUnsupported)
    else if policy.value == "inherit" && (a.model.Some? || a.thinking.Some?)
    then Refused(InheritValuesForbidden)
    else if TargetFault(a).Some? then Refused(TargetFault(a).value)
    else Ok(Profile(if a.version == PROFILE_V1 then ProfileV1 else ProfileV2, policy.value, a.model,
                    if policy.value != "inherit" then Some(ThinkingOf(a)) else None,
                    a.targetType, a.projectId, a.environment, a.directoryName))
  }

  predicate IsProfileKey(v: ProfileVersion, k: Name) {
    || k.SchemaVersion? || k.Model? || k.Thinking? || k.TargetType? || k.ProjectId?
    || k.Environment? || k.DirectoryName? || k.ProfileSha? || (v == ProfileV2 && k.SelectionPolicy?)
  }

  function ProfileKeys(v: ProfileVersion): set<Name> { set k: Name | IsProfileKey(v, k) }

  function OptionalText(t: Option<string>): Json { if t.Some? then JText(t.value) else JNull }

  function ProfileMember(names: Names, p: Profile, k: Name): Json
    requires IsProfileKey(p.version, k)
  {
    match k
    case SchemaVersion => JText(VersionText(p.version))
    case Model => OptionalText(p.model)
    case Thinking => OptionalText(p.thinking)
    case TargetType => JText(p.targetType)
    case ProjectId => OptionalText(p.projectId)
    case Environment => OptionalText(p.environment)
    case DirectoryName => OptionalText(p.directoryName)
    case ProfileSha => JText(names.profile(p))
    case SelectionPolicy => JText(p.policy)
  }

  /** `to_wire`. */
  function EncodeProfile(names: Names, p: Profile): Json {
    JObject(map k | k in ProfileKeys(p.version) :: ProfileMember(names, p, k), {})
  }

  /** A member that is null or a non-blank text: the text, or the fault. */
  function OptionalAt(v: Json): Loaded<Option<string>> {
    if v.JNull? then Ok(None)
    else if TextAt(v).Some? then Ok(TextAt(v)) else Refused(PacketShapeInvalid)
  }

  /** The constructor arguments a profile object spells. */
  function ArgsAt(m: map<Name, Json>, version: ProfileVersion): Option<ProfileArgs>
    requires m.Keys == ProfileKeys(version)
  {
    var policy := if version == ProfileV1 then Some("pinned") else TextAt(m[SelectionPolicy]);
    var model, thinking := OptionalAt(m[Model]), OptionalAt(m[Thinking]);
    var target, project := TextAt(m[TargetType]), OptionalAt(m[ProjectId]);
    var environment, directory := OptionalAt(m[Environment]), OptionalAt(m[DirectoryName]);
    if || policy.None? || !model.Ok? || !thinking.Ok? || target.None? || !project.Ok?
       || !environment.Ok? || !directory.Ok?
    then None
    else Some(ProfileArgs(VersionText(version), policy, model.value, thinking.value, target.value,
                          project.value, environment.value, directory.value))
  }

  /** `_decode_execution_profile`. */
  function DecodeProfile(names: Names, v: Json): Loaded<Profile> {
    if !v.JObject? then Refused(ProfileShapeInvalid)
    else if SchemaVersion !in v.members || TextAt(v.members[SchemaVersion]).None?
    then Refused(PacketShapeInvalid)
    else
      var schema := v.members[SchemaVersion].text;
      if schema != PROFILE_V1 && schema != PROFILE_V2 then Refused(ProfileVersionUnsupported)
      else
        var version := if schema == PROFILE_V1 then ProfileV1 else ProfileV2;
        if !ExactKeys(v, ProfileKeys(version)) then Refused(PacketShapeInvalid)
        else
          var args := ArgsAt(v.members, version);
          if args.None? then Refused(PacketShapeInvalid)
          else
            var made := MakeProfile(args.value);
            if !made.Ok? then made
            else if v.members[ProfileSha] != JText(names.profile(made.value))
            then Refused(ProfileIdentityMismatch) else made
  }

  /** A profile its constructor made. */
  ghost predicate Made(p: Profile) { exists a :: MakeProfile(a) == Ok(p) }

  /** Every made profile spells its own arguments: making it again changes nothing. */
  function ArgsOf(p: Profile): ProfileArgs {
    ProfileArgs(VersionText(p.version), Some(p.policy), p.model, p.thinking, p.targetType,
                p.projectId, p.environment, p.directoryName)
  }

  lemma VersionsDiffer()
    ensures PROFILE_V1 != PROFILE_V2 && NonBlank(PROFILE_V1) && NonBlank(PROFILE_V2)
  {
  }

  lemma MakingIsIdempotent(p: Profile)
    requires Made(p)
    ensures MakeProfile(ArgsOf(p)) == Ok(p)
    ensures KnownPolicy(p.policy) && (p.thinking.Some? ==> KnownEffort(p.thinking.value))
    ensures p.model.Some? ==> NonBlank(p.model.value)
    ensures p.projectId.Some? ==> NonBlank(p.projectId.value)
    ensures p.directoryName.Some? ==> NonBlank(p.directoryName.value)
    ensures p.environment.Some? ==> p.environment.value == "local" || p.environment.value == "worktree"
    ensures p.targetType == "project" || p.targetType == "projectless"
    ensures p.version == ProfileV1 ==> p.policy == "pinned"
  {
  }

  lemma KnownTexts(t: string)
    requires KnownPolicy(t) || KnownEffort(t) || t == "local" || t == "worktree" || t == "project"
             || t == "projectless"
    ensures NonBlank(t)
  {
    assert !IsSpace(t[0]);
  }

  lemma EncodedProfileMembers(names: Names, p: Profile)
    ensures var v := EncodeProfile(names, p);
      && ExactKeys(v, ProfileKeys(p.version))
      && forall k :: IsProfileKey(p.version, k) ==>
                       k in v.members && v.members[k] == ProfileMember(names, p, k)
  {
  }

  lemma MadeArgsRead(names: Names, p: Profile)
    requires Made(p)
    ensures var v := EncodeProfile(names, p);
      ExactKeys(v, ProfileKeys(p.version)) && ArgsAt(v.members, p.version) == Some(ArgsOf(p))
  {
    hide NonBlank, EncodeProfile, KnownPolicy, KnownEffort, MakeProfile, Made, VersionText;
    MakingIsIdempotent(p);
    EncodedProfileMembers(names, p);
    KnownTexts(p.policy);
    KnownTexts(p.targetType);
    if p.thinking.Some? { KnownTexts(p.thinking.value); }
    if p.environment.Some? { KnownTexts(p.environment.value); }
  }

  /** Every profile a constructor made decodes from its own wire form. */
  lemma ProfileRoundTrip(names: Names, p: Profile)
    requires Made(p)
    ensures DecodeProfile(names, EncodeProfile(names, p)) == Ok(p)
  {
    hide NonBlank, EncodeProfile, MakeProfile, Made, ArgsAt, PROFILE_V1, PROFILE_V2;
    VersionsDiffer();
    MakingIsIdempotent(p);
    MadeArgsRead(names, p);
    EncodedProfileMembers(names, p);
  }

  predicate DefaultEffort(p: Profile) { p.thinking == Some(DEFAULT_THINKING) }

  /** The wire form with a null `thinking`. */
  function NullThinking(names: Names, p: Profile): Json {
    JObject(EncodeProfile(names, p).members[Thinking := JNull], {})
  }

  lemma NullThinkingDecodes(names: Names, p: Profile)
    requires Made(p) && DefaultEffort(p)
    ensures DecodeProfile(names, NullThinking(names, p)) == Ok(p)
  {
    hide NonBlank, EncodeProfile, MakeProfile, Made, ArgsAt, PROFILE_V1, PROFILE_V2, DefaultEffort;
    VersionsDiffer();
    NullArgsRead(names, p);
    EncodedProfileMembers(names, p);
    var v, w := NullThinking(names, p), EncodeProfile(names, p);
    assert IsProfileKey(p.version, SchemaVersion) && IsProfileKey(p.version, ProfileSha);
    assert v.members[SchemaVersion] == w.members[SchemaVersion]
        && v.members[ProfileSha] == w.members[ProfileSha];
    NullThinkingIsMade(p);
  }

  /** Leaving the effort out is asking for the default. */
  lemma NullThinkingIsMade(p: Profile)
    requires Made(p) && DefaultEffort(p)
    ensures MakeProfile(ArgsOf(p).(thinking := None)) == Ok(p)
  {
  }

  lemma NullArgsRead(names: Names, p: Profile)
    requires Made(p) && DefaultEffort(p)
    ensures var v := NullThinking(names, p);
      && ExactKeys(v, ProfileKeys(p.version))
      && ArgsAt(v.members, p.version) == Some(ArgsOf(p).(thinking := None))
  {
    hide NonBlank, EncodeProfile, MakeProfile, Made, TextAt, DefaultEffort;
    MadeArgsRead(names, p);
    assert IsProfileKey(p.version, Thinking);
    assert NullThinking(names, p).members.Keys == ProfileKeys(p.version);
  }

  /** Exactly the wire forms of constructed profiles decode, each to its own profile, where a null
      `thinking` may stand for the default effort. */
  lemma DecodesProfileIff(names: Names, v: Json, p: Profile)
    ensures DecodeProfile(names, v) == Ok(p)
       <==> Made(p) && (v == EncodeProfile(names, p)
                        || (DefaultEffort(p) && v == NullThinking(names, p)))
  {
    hide DecodeProfile, EncodeProfile, NullThinking, DefaultEffort, Made;
    if DecodeProfile(names, v) == Ok(p) {
      DecodedProfileIsWire(names, v, p);
    } else if Made(p) {
      ProfileRoundTrip(names, p);
      if DefaultEffort(p) { NullThinkingDecodes(names, p); }
    }
  }

  lemma SomeDefaultEffort() returns (p: Profile)
    ensures Made(p) && DefaultEffort(p)
  {
    var a := ProfileArgs(PROFILE_V2, Some("pinned"), Some("model"), None, "projectless", None, None,
                         None);
    assert "model"[0] == 'm';
    p := MakeProfile(a).value;
  }

  /** Exactly the profiles of the default effort have a second wire form. */
  lemma DefaultEffortsHaveTwoForms(names: Names, p: Profile)
    requires Made(p)
    ensures DefaultEffort(p)
       <==> exists v :: v != EncodeProfile(names, p) && DecodeProfile(names, v) == Ok(p)
  {
    hide DecodeProfile, EncodeProfile, NullThinking, DefaultEffort, Made;
    forall v ensures DecodeProfile(names, v) == Ok(p) && v != EncodeProfile(names, p) ==>
                       DefaultEffort(p)
    {
      DecodesProfileIff(names, v, p);
    }
    if DefaultEffort(p) {
      NullThinkingDecodes(names, p);
      NullThinkingDiffers(names, p);
    }
  }

  lemma NullThinkingDiffers(names: Names, p: Profile)
    requires DefaultEffort(p)
    ensures NullThinking(names, p) != EncodeProfile(names, p)
  {
    assert IsProfileKey(p.version, Thinking);
    assert EncodeProfile(names, p).members[Thinking] != NullThinking(names, p).members[Thinking];
  }

  lemma DecodedProfileIsWire(names: Names, v: Json, p: Profile)
    requires DecodeProfile(names, v) == Ok(p)
    ensures Made(p)
    ensures v == EncodeProfile(names, p) || (DefaultEffort(p) && v == NullThinking(names, p))
  {
    hide NonBlank, EncodeProfile, PROFILE_V1, PROFILE_V2, MakeProfile, ArgsAt, ProfileMember;
    DecodeProfileShape(names, v, p);
    var args := ArgsAt(v.members, p.version).value;
    MadeFields(args, p);
    EncodedProfileMembers(names, p);
    var w := EncodeProfile(names, p);
    forall k | IsProfileKey(p.version, k) && k != Thinking ensures v.members[k] == w.members[k] {
      if k != ProfileSha { ReadMember(names, v.members, args, p, k); } else { ShaMember(names, p); }
    }
    ThinkingMember(names, v.members, args, p);
    if v.members[Thinking] == w.members[Thinking] {
      assert v.members == w.members;
    } else {
      assert v.members == w.members[Thinking := JNull];
    }
  }

  lemma DecodeProfileShape(names: Names, v: Json, p: Profile)
    requires DecodeProfile(names, v) == Ok(p)
    ensures ExactKeys(v, ProfileKeys(p.version))
    ensures v.members[SchemaVersion] == JText(VersionText(p.version))
    ensures ArgsAt(v.members, p.version).Some?
    ensures MakeProfile(ArgsAt(v.members, p.version).value) == Ok(p)
    ensures ArgsAt(v.members, p.version).value.policy.Some?
    ensures v.members[ProfileSha] == JText(names.profile(p))
  {
    hide NonBlank, PROFILE_V1, PROFILE_V2, KnownPolicy, KnownEffort, TargetFault;
    VersionsDiffer();
  }

  lemma ShaMember(names: Names, p: Profile)
    ensures ProfileMember(names, p, ProfileSha) == JText(names.profile(p))
  {
  }

  /** What making keeps of its arguments: all of them but a defaulted effort. */
  lemma MadeFields(a: ProfileArgs, p: Profile)
    requires MakeProfile(a) == Ok(p) && a.policy.Some?
    ensures a.version == VersionText(p.version) && a.policy == Some(p.policy) && a.model == p.model
    ensures a.targetType == p.targetType && a.projectId == p.projectId
    ensures a.environment == p.environment && a.directoryName == p.directoryName
    ensures a.thinking == p.thinking
            || (p.thinking == Some(DEFAULT_THINKING)
                && (a.thinking.None? || a.thinking.value == ""))
  {
  }

  lemma ReadMember(names: Names, m: map<Name, Json>, a: ProfileArgs, p: Profile, k: Name)
    requires m.Keys == ProfileKeys(p.version) && ArgsAt(m, p.version) == Some(a)
    requires a.version == VersionText(p.version) && a.policy == Some(p.policy) && a.model == p.model
    requires a.targetType == p.targetType && a.projectId == p.projectId
    requires a.environment == p.environment && a.directoryName == p.directoryName
    requires m[SchemaVersion] == JText(VersionText(p.version))
    requires IsProfileKey(p.version, k) && k != Thinking && k != ProfileSha
    ensures m[k] == ProfileMember(names, p, k)
  {
    hide NonBlank, VersionText;
  }

  lemma ThinkingMember(names: Names, m: map<Name, Json>, a: ProfileArgs, p: Profile)
    requires m.Keys == ProfileKeys(p.version) && ArgsAt(m, p.version) == Some(a)
    requires a.thinking == p.thinking
             || (p.thinking == Some(DEFAULT_THINKING)
                 && (a.thinking.None? || a.thinking.value == ""))
    ensures m[Thinking] == ProfileMember(names, p, Thinking)
            || (p.thinking == Some(DEFAULT_THINKING) && m[Thinking] == JNull)
  {
  }
}
