/** The wire forms member by member, and what the constructors of bindings, packets and profiles
    accept. */
module CodecLaws {
  import opened Records
  import opened PacketCodec

  // ---------------------------------------------------------------- packets

  lemma PacketSpells(names: Names, p: TaskPacket)
    ensures var v, b := EncodePacket(names, p), p.body;
      && v.JObject? && v.unknown == {}
      && v.members.Keys == {MissionId, MissionRevision, MissionMode, PredicateKey, RouteId, ExecutorId,
                            Scope, ScopeVersions, ExpectedDelta, AbandonIf, RecoveryBudget,
                            DestinationKey, PacketIdKey}
                           + (if b.context.Some? then {ContextBindingKey} else {})
      && v.members[MissionId] == JText(b.missionId)
      && v.members[MissionRevision] == JInt(b.missionRevision)
      && v.members[MissionMode] == JText(b.missionMode)
      && v.members[PredicateKey] == JText(b.predicateKey) && v.members[RouteId] == JText(b.routeId)
      && v.members[ExecutorId] == JText(b.executorId)
      && v.members[ExpectedDelta] == JText(b.expectedDelta)
      && v.members[AbandonIf] == JText(b.abandonIf)
      && v.members[RecoveryBudget] == JInt(b.recoveryBudget)
      && v.members[DestinationKey] == JObject(map[CoordinatorId := JText(b.destination.coordinatorId),
                                                  ThreadId := JText(b.destination.threadId)], {})
      && v.members[PacketIdKey] == JText(match p.id case Of(x) => names.packet(x) case Raw(t) => t)
  {
    hide EncodePacket, PacketKeys, TextList, VersionList;
    EncodedMembers(names, p);
    KeysSpell(p.body.context.Some?);
    IdMember(names, p);
  }

  lemma KeysSpell(bound: bool)
    ensures PacketKeys(bound) == {MissionId, MissionRevision, MissionMode, PredicateKey, RouteId,
                                  ExecutorId, Scope, ScopeVersions, ExpectedDelta, AbandonIf,
                                  RecoveryBudget, DestinationKey, PacketIdKey}
                                 + (if bound then {ContextBindingKey} else {})
  {
  }

  lemma ListsSpell(names: Names, p: TaskPacket)
    ensures var m, b := EncodePacket(names, p).members, p.body;
      && Scope in m && m[Scope].JList? && |m[Scope].items| == |b.scope|
      && (forall i :: 0 <= i < |b.scope| ==> m[Scope].items[i] == JText(b.scope[i]))
      && ScopeVersions in m && m[ScopeVersions].JList?
      && |m[ScopeVersions].items| == |b.scopeVersions|
      && (forall i :: 0 <= i < |b.scopeVersions| ==>
            m[ScopeVersions].items[i]
            == JList([JText(b.scopeVersions[i].0), JInt(b.scopeVersions[i].1)]))
  {
    EncodedMembers(names, p);
  }

  lemma BindingSpells(b: ContextBinding)
    ensures var v := EncodeBinding(b);
      && v.JObject? && v.unknown == {}
      && v.members == map[TaskId := JText(b.taskId), ArtifactRoot := JText(b.artifactRoot),
                          ContextPath := JText(b.contextPath), ContextSha := JText(b.contextSha256),
                          JspacePath := JText(b.jspacePath), JspaceSha := JText(b.jspaceSha256),
                          GenerationId := JText(b.generationId),
                          InputFingerprint := JText(b.inputFingerprint)]
  {
  }

  /** Which packets survive their wire form: authentic ones with a budget, every text non-blank, and a
      binding whose texts are non-blank and whose digests are digests. */
  lemma DecodableIff(p: TaskPacket)
    ensures Decodable(p) <==>
            var b := p.body;
            && p.id == Of(b) && b.recoveryBudget >= 0
            && NonBlank(b.missionId) && NonBlank(b.missionMode) && NonBlank(b.predicateKey)
            && NonBlank(b.routeId) && NonBlank(b.executorId) && NonBlank(b.expectedDelta)
            && NonBlank(b.abandonIf) && NonBlank(b.destination.coordinatorId)
            && NonBlank(b.destination.threadId)
            && (forall i :: 0 <= i < |b.scope| ==> NonBlank(b.scope[i]))
            && (forall i :: 0 <= i < |b.scopeVersions| ==> NonBlank(b.scopeVersions[i].0))
            && (b.context.Some? ==> BindingStands(b.context.value))
  {
    hide NonBlank, BindingWellFormed, BindingStands;
    if p.body.context.Some? { BindingStandsIff(p.body.context.value); }
  }

  predicate BindingStands(x: ContextBinding) {
    && NonBlank(x.taskId) && NonBlank(x.artifactRoot) && NonBlank(x.contextPath)
    && NonBlank(x.jspacePath) && NonBlank(x.generationId)
    && IsSha(x.contextSha256) && IsSha(x.jspaceSha256) && IsSha(x.inputFingerprint)
  }

  lemma BindingStandsIff(x: ContextBinding)
    ensures BindingWellFormed(x) <==> BindingStands(x)
  {
    hide NonBlank, Sha256Text, IsSha;
    ShaIff(x.contextSha256);
    ShaIff(x.jspaceSha256);
    ShaIff(x.inputFingerprint);
  }

  lemma ShaIff(s: string)
    ensures Sha256Text(s) <==> IsSha(s)
  {
  }

  /** Sixty-four lower-case hexadecimal digits. */
  predicate IsSha(s: string) {
    |s| == 64 && forall i :: 0 <= i < |s| ==> s[i] in "0123456789abcdef"
  }

  // ---------------------------------------------------------------- profiles

  lemma ProfileSpells(names: Names, p: Profile)
    ensures var v := EncodeProfile(names, p);
      && v.JObject? && v.unknown == {}
      && v.members.Keys == {SchemaVersion, Model, Thinking, TargetType, ProjectId, Environment,
                            DirectoryName, ProfileSha}
                           + (if p.version == ProfileV2 then {SelectionPolicy} else {})
      && v.members[SchemaVersion] == JText(if p.version == ProfileV1
                                           then "native-tura-execution-profile/v1"
                                           else "native-tura-execution-profile/v2")
      && (p.version == ProfileV2 ==> v.members[SelectionPolicy] == JText(p.policy))
      && v.members[Model] == OrNull(p.model) && v.members[Thinking] == OrNull(p.thinking)
      && v.members[TargetType] == JText(p.targetType)
      && v.members[ProjectId] == OrNull(p.projectId)
      && v.members[Environment] == OrNull(p.environment)
      && v.members[DirectoryName] == OrNull(p.directoryName)
      && v.members[ProfileSha] == JText(names.profile(p))
  {
    EncodedProfileMembers(names, p);
  }

  function OrNull(t: Option<string>): Json { match t case Some(x) => JText(x) case None => JNull }

  /** The policy meant: version one is always pinned; left out, it follows from what is given. */
  predicate MeansPolicy(a: ProfileArgs, policy: string) {
    if a.version == "native-tura-execution-profile/v1"
    then policy == "pinned" && (a.policy.None? || a.policy == Some("pinned"))
    else match a.policy
      case Some(given) => policy == given
      case None => policy == if a.model.None? && a.thinking.None? then "inherit" else "preferred"
  }

  /** The effort meant: the one given, or the default. */
  function EffortMeant(a: ProfileArgs): string {
    match a.thinking case Some(t) => (if t == "" then "max" else t) case None => "max"
  }

  /** A chosen model needs a name and a known effort; an inherited one can have neither. */
  predicate ModelSuits(a: ProfileArgs, policy: string) {
    if policy == "inherit" then a.model.None? && a.thinking.None?
    else && policy in {"preferred", "pinned"} && a.model.Some? && NonBlank(a.model.value)
         && EffortMeant(a) in {"low", "medium", "high", "xhigh", "max"}
  }

  /** A project target has an id and an environment and no directory name; one without a project has at
      most a directory name. */
  predicate TargetSuits(a: ProfileArgs) {
    if a.targetType == "project" then
      && a.projectId.Some? && NonBlank(a.projectId.value)
      && (a.environment == Some("local") || a.environment == Some("worktree"))
      && a.directoryName.None?
    else
      && a.targetType == "projectless" && a.projectId.None? && a.environment.None?
      && (a.directoryName.Some? ==> NonBlank(a.directoryName.value))
  }

  /** What the profile constructor accepts, and the profile it makes. */
  lemma ProfileConstructedIff(a: ProfileArgs)
    ensures MakeProfile(a).Ok? <==>
            && a.version in {"native-tura-execution-profile/v1", "native-tura-execution-profile/v2"}
            && (exists policy :: MeansPolicy(a, policy) && ModelSuits(a, policy)) && TargetSuits(a)
    ensures MakeProfile(a).Ok? ==>
              var p := MakeProfile(a).value;
              && (p.version == ProfileV1 <==> a.version == "native-tura-execution-profile/v1")
              && MeansPolicy(a, p.policy) && p.model == a.model
              && p.thinking == (if p.policy == "inherit" then None else Some(EffortMeant(a)))
              && p.targetType == a.targetType && p.projectId == a.projectId
              && p.environment == a.environment && p.directoryName == a.directoryName
  {
    hide NonBlank;
    VersionsDiffer();
    var policy := PolicyOf(a);
    if policy.Some? {
      assert MeansPolicy(a, policy.value);
    }
    forall x | MeansPolicy(a, x) ensures policy == Some(x) {}
  }
}
