/** Immutable task capsules: their wire form, the loader, and the checks before a publication. */
module Capsules {
  import opened Records
  import opened PacketCodec
  import opened CapsuleFiles

  /** `material` is the embedded task context, opaque here. */
  datatype Capsule = Capsule(task: string, mission: string, route: string, packet: TaskPacket,
                             profile: Option<Profile>, material: Option<Json>)

  /** The parts of the environment a site depends on: the texts of content addresses, how the context
      of a bound packet is read from its files, and which embedded context is accepted for it. */
  datatype Site = Site(names: Names, task: string, readContext: PacketBody -> Loaded<Json>,
                       accepts: (PacketBody, Json) -> bool)

  /** Capsule digests do not collide, and a context just read is an accepted object. */
  ghost predicate Lawful(site: Site) {
    && (forall a, b :: site.names.capsule(a) == site.names.capsule(b) ==> a == b)
    && (forall b: PacketBody, m: Json ::
          site.readContext(b) == Loaded<Json>.Ok(m) ==> m.JObject? && site.accepts(b, m))
  }

  // ---------------------------------------------------------------- the wire form

  const CAPSULE_V1 := "native-tura-task-capsule/v1"
  const CAPSULE_V2 := "native-tura-task-capsule/v2"
  const CAPSULE_V3 := "native-tura-task-capsule/v3"

  predicate IsPayloadKey(profiled: bool, bound: bool, k: Name) {
    || k.SchemaVersion? || k.TaskName? || k.MissionText? || k.RouteText? || k.PacketKey?
    || k.CallbackId? || (profiled && k.ProfileKey?) || (bound && k.MaterialKey?)
  }

  function CapsuleKeys(profiled: bool, bound: bool): set<Name> {
    set k: Name | IsPayloadKey(profiled, bound, k) || k.CapsuleSha?
  }

  function SchemaOf(profiled: bool, bound: bool): string {
    if profiled then CAPSULE_V3 else if bound then CAPSULE_V2 else CAPSULE_V1
  }

  function CallbackOf(names: Names, task: string, mission: string, route: string, p: TaskPacket,
                      profile: Option<Profile>): string {
    names.callback(CallbackPayload(task, mission, route, PacketIdText(names, p.id),
                                   p.body.destination.threadId,
                                   if profile.Some? then Some(names.profile(profile.value)) else None))
  }

  function PayloadMember(names: Names, c: Capsule, k: Name): Json
    requires IsPayloadKey(c.profile.Some?, c.material.Some?, k)
  {
    match k
    case SchemaVersion => JText(SchemaOf(c.profile.Some?, c.material.Some?))
    case TaskName => JText(c.task)
    case MissionText => JText(c.mission)
    case RouteText => JText(c.route)
    case PacketKey => EncodePacket(names, c.packet)
    case CallbackId => JText(CallbackOf(names, c.task, c.mission, c.route, c.packet, c.profile))
    case ProfileKey => EncodeProfile(names, c.profile.value)
    case MaterialKey => c.material.value
  }

  /** `_capsule_payload`. */
  function Payload(names: Names, c: Capsule): map<Name, Json> {
    map k: Name | IsPayloadKey(c.profile.Some?, c.material.Some?, k) :: PayloadMember(names, c, k)
  }

  function ShaOf(names: Names, c: Capsule): string { names.capsule(Payload(names, c)) }

  function WireOf(names: Names, c: Capsule): Json {
    JObject(Payload(names, c)[CapsuleSha := JText(ShaOf(names, c))], {})
  }

  // ---------------------------------------------------------------- loading

  datatype CapsuleVersion = V1 | V2 | V3

  function VersionOf(v: Json): Option<CapsuleVersion>
    requires v.JObject?
  {
    if SchemaVersion !in v.members then None
    else if v.members[SchemaVersion] == JText(CAPSULE_V1) then Some(V1)
    else if v.members[SchemaVersion] == JText(CAPSULE_V2) then Some(V2)
    else if v.members[SchemaVersion] == JText(CAPSULE_V3) then Some(V3) else None
  }

  /** The keys a version asks for; only v3 may carry its context or not. */
  predicate KeysFit(v: Json, version: CapsuleVersion)
    requires v.JObject?
  {
    ExactKeys(v, CapsuleKeys(version.V3?, version.V2? || (version.V3? && MaterialKey in v.members)))
  }

  predicate Core(m: map<Name, Json>) {
    && TaskName in m && MissionText in m && RouteText in m && PacketKey in m && CallbackId in m
    && CapsuleSha in m
  }

  lemma KeysGiveCore(v: Json, version: CapsuleVersion)
    requires v.JObject? && KeysFit(v, version)
    ensures Core(v.members) && (version.V3? ==> ProfileKey in v.members)
    ensures v.members.Keys >= {CapsuleSha}
  {
  }

  /** The embedded context as `_verified_task_context_from_material` takes it. */
  function ContextOf(site: Site, p: PacketBody, m: map<Name, Json>): Loaded<Option<Json>> {
    if p.context.None? then
      if MaterialKey in m && m[MaterialKey] != JNull then Refused(ContextMismatch) else Ok(None)
    else if MaterialKey !in m || !m[MaterialKey].JObject? then Refused(ContextMismatch)
    else if site.accepts(p, m[MaterialKey]) then Ok(Some(m[MaterialKey]))
    else Refused(ContextRejected)
  }

  /** The digest and callback checks that close a load. */
  function Bound(site: Site, revision: int, pathSha: string, m: map<Name, Json>, p: TaskPacket,
                 profile: Option<Profile>, material: Option<Json>): Loaded<Capsule>
    requires MissionText in m && RouteText in m && CallbackId in m && CapsuleSha in m
  {
    if p.body.missionRevision != revision then Refused(PathMismatch)
    else if TextAt(m[MissionText]).None? || TextAt(m[RouteText]).None?
    then Refused(PacketShapeInvalid)
    else
      var mission, route := m[MissionText].text, m[RouteText].text;
      if m[CallbackId] != JText(CallbackOf(site.names, site.task, mission, route, p, profile))
      then Refused(CallbackMismatch)
      else if m[CapsuleSha] != JText(site.names.capsule(m - {CapsuleSha}))
      then Refused(CapsuleIdentityMismatch)
      else if pathSha != site.names.capsule(m - {CapsuleSha}) then Refused(PathMismatch)
      else Ok(Capsule(site.task, mission, route, p, profile, material))
  }

  /** From the packet on, for a file with the keys of its version. */
  function LoadMembers(site: Site, revision: int, pathSha: string, m: map<Name, Json>,
                       version: CapsuleVersion): Loaded<Capsule>
    requires Core(m) && (version.V3? ==> ProfileKey in m)
  {
    var packet := DecodePacket(site.names, m[PacketKey]);
    if !packet.Ok? then Refused(packet.code)
    else if version.V1? && packet.value.body.context.Some? then Refused(CapsuleVersionUnsupported)
    else if version.V2? && packet.value.body.context.None? then Refused(ContextMismatch)
    else
      var profile :=
        if version.V3? then DecodeProfile(site.names, m[ProfileKey]) else Refused(NotFound);
      if version.V3? && !profile.Ok? then Refused(profile.code)
      else if version.V3? && (packet.value.body.context.None? != (MaterialKey !in m))
      then Refused(ContextMismatch)
      else
        var context := ContextOf(site, packet.value.body, m);
        if !context.Ok? then Refused(context.code)
        else Bound(site, revision, pathSha, m, packet.value,
                   if version.V3? then Some(profile.value) else None, context.value)
  }

  /** `_load_capsule_path`, from the parsed file on. */
  function LoadWire(site: Site, revision: int, pathSha: string, v: Json): Loaded<Capsule> {
    if !v.JObject? then Refused(JsonInvalid)
    else if VersionOf(v).None? then Refused(CapsuleVersionUnsupported)
    else if !KeysFit(v, VersionOf(v).value) then Refused(PacketShapeInvalid)
    else
      KeysGiveCore(v, VersionOf(v).value);
      if v.members[TaskName] != JText(site.task) then Refused(TaskNameMismatch)
      else LoadMembers(site, revision, pathSha, v.members, VersionOf(v).value)
  }

  /** A capsule as a publication builds it. */
  ghost predicate Sound(site: Site, c: Capsule) {
    && c.task == site.task && NonBlank(c.mission) && NonBlank(c.route) && Decodable(c.packet)
    && (c.profile.Some? ==> Made(c.profile.value))
    && (c.material.Some? <==> c.packet.body.context.Some?)
    && (c.material.Some? ==> c.material.value.JObject?
                             && site.accepts(c.packet.body, c.material.value))
  }

  lemma SchemasDiffer()
    ensures CAPSULE_V1 != CAPSULE_V2 && CAPSULE_V1 != CAPSULE_V3 && CAPSULE_V2 != CAPSULE_V3
  {
  }

  lemma WireMembers(names: Names, c: Capsule)
    ensures var v := WireOf(names, c);
      && ExactKeys(v, CapsuleKeys(c.profile.Some?, c.material.Some?))
      && v.members[CapsuleSha] == JText(ShaOf(names, c))
      && v.members - {CapsuleSha} == Payload(names, c)
      && (forall k: Name :: IsPayloadKey(c.profile.Some?, c.material.Some?, k) ==>
            k in v.members && v.members[k] == PayloadMember(names, c, k))
  {
  }

  lemma BoundLoads(site: Site, c: Capsule, m: map<Name, Json>)
    requires NonBlank(c.mission) && NonBlank(c.route) && c.task == site.task
    requires MissionText in m && RouteText in m && CallbackId in m && CapsuleSha in m
    requires m[MissionText] == JText(c.mission) && m[RouteText] == JText(c.route)
    requires m[CallbackId] == JText(CallbackOf(site.names, c.task, c.mission, c.route, c.packet,
                                               c.profile))
    requires m[CapsuleSha] == JText(ShaOf(site.names, c))
    requires m - {CapsuleSha} == Payload(site.names, c)
    ensures Bound(site, c.packet.body.missionRevision, ShaOf(site.names, c), m, c.packet, c.profile,
                  c.material) == Ok(c)
  {
  }

  /** Whatever a publication writes loads back as the capsule that was published: task, mission,
      route, packet, profile and context. */
  lemma CapsuleRoundTrip(site: Site, c: Capsule)
    requires Sound(site, c)
    ensures LoadWire(site, c.packet.body.missionRevision, ShaOf(site.names, c),
                     WireOf(site.names, c)) == Ok(c)
  {
    hide NonBlank, CallbackOf, Payload, EncodePacket, EncodeProfile, DecodePacket, DecodeProfile,
         Decodable, Made, Bound, WireOf, ShaOf, CapsuleKeys, CAPSULE_V1, CAPSULE_V2, CAPSULE_V3,
         LoadMembers;
    SchemasDiffer();
    WireMembers(site.names, c);
    var v := WireOf(site.names, c);
    assert v.members[SchemaVersion] == JText(SchemaOf(c.profile.Some?, c.material.Some?));
    MaterialIsListed(c);
    var version := VersionOf(v).value;
    assert KeysFit(v, version);
    KeysGiveCore(v, version);
    MembersLoad(site, c, v.members, version);
  }

  lemma MembersLoad(site: Site, c: Capsule, m: map<Name, Json>, version: CapsuleVersion)
    requires Sound(site, c) && Core(m) && (version.V3? ==> ProfileKey in m)
    requires version == if c.profile.Some? then V3 else if c.material.Some? then V2 else V1
    requires forall k: Name :: IsPayloadKey(c.profile.Some?, c.material.Some?, k) ==>
               k in m && m[k] == PayloadMember(site.names, c, k)
    requires MaterialKey in m <==> c.material.Some?
    requires m[CapsuleSha] == JText(ShaOf(site.names, c))
    requires m - {CapsuleSha} == Payload(site.names, c)
    ensures LoadMembers(site, c.packet.body.missionRevision, ShaOf(site.names, c), m, version) == Ok(c)
  {
    hide NonBlank, CallbackOf, Payload, EncodePacket, EncodeProfile, DecodePacket, DecodeProfile,
         Decodable, Made, Bound, ShaOf;
    DecodesPacketIff(site.names, EncodePacket(site.names, c.packet), c.packet);
    if c.profile.Some? { ProfileRoundTrip(site.names, c.profile.value); }
    BoundLoads(site, c, m);
  }

  lemma MaterialIsListed(c: Capsule)
    ensures MaterialKey in CapsuleKeys(c.profile.Some?, c.material.Some?) <==> c.material.Some?
  {
  }

  lemma BoundBinds(site: Site, revision: int, pathSha: string, m: map<Name, Json>, p: TaskPacket,
                   profile: Option<Profile>, material: Option<Json>, c: Capsule)
    requires MissionText in m && RouteText in m && CallbackId in m && CapsuleSha in m
    requires Bound(site, revision, pathSha, m, p, profile, material) == Ok(c)
    ensures c.task == site.task && c.packet == p && p.body.missionRevision == revision
    ensures pathSha == site.names.capsule(m - {CapsuleSha}) && m[CapsuleSha] == JText(pathSha)
    ensures NonBlank(c.mission) && NonBlank(c.route)
  {
  }

  /** A file that loads carries its own name: the revision and the digest of its content, and a packet
      that is authentic. */
  lemma LoadedFileIsBound(site: Site, revision: int, pathSha: string, v: Json, c: Capsule)
    requires LoadWire(site, revision, pathSha, v) == Ok(c)
    ensures v.JObject? && c.packet.body.missionRevision == revision
    ensures pathSha == site.names.capsule(v.members - {CapsuleSha})
    ensures CapsuleSha in v.members && v.members[CapsuleSha] == JText(pathSha)
    ensures Decodable(c.packet) && v.members.Keys >= {PacketKey}
    ensures v.members[PacketKey] == EncodePacket(site.names, c.packet)
    ensures c.task == site.task
  {
    hide NonBlank, CallbackOf, EncodePacket, DecodePacket, DecodeProfile, Decodable, Bound,
         ContextOf, CAPSULE_V1, CAPSULE_V2, CAPSULE_V3, LoadMembers, KeysFit;
    KeysGiveCore(v, VersionOf(v).value);
    MembersBind(site, revision, pathSha, v.members, VersionOf(v).value, c);
  }

  lemma MembersBind(site: Site, revision: int, pathSha: string, m: map<Name, Json>,
                    version: CapsuleVersion, c: Capsule)
    requires Core(m) && (version.V3? ==> ProfileKey in m)
    requires LoadMembers(site, revision, pathSha, m, version) == Ok(c)
    ensures c.packet.body.missionRevision == revision && c.task == site.task
    ensures pathSha == site.names.capsule(m - {CapsuleSha}) && m[CapsuleSha] == JText(pathSha)
    ensures Decodable(c.packet) && m[PacketKey] == EncodePacket(site.names, c.packet)
  {
    hide NonBlank, CallbackOf, EncodePacket, DecodePacket, DecodeProfile, Decodable, Bound,
         ContextOf;
    var packet := DecodePacket(site.names, m[PacketKey]).value;
    DecodesPacketIff(site.names, m[PacketKey], packet);
    BoundBinds(site, revision, pathSha, m, packet,
               if version.V3? then Some(DecodeProfile(site.names, m[ProfileKey]).value) else None,
               ContextOf(site, packet.body, m).value, c);
  }

  // ---------------------------------------------------------------- directories

  /** A file: its parsed content (`None` when it is no JSON), mode 0444 or not, and its links. */
  datatype File = File(content: Option<Json>, frozen: bool, links: nat)

  type Directory = map<FileName, File>

  /** `_capsule_file_identity`: the revision a member stands for. */
  function IdentityOf(name: FileName, f: File): Loaded<nat> {
    if !Recognised(name) then Refused(MembersInvalid)
    else if name.Named? then Ok(RevisionOf(name))
    else if f.content.None? || !f.content.value.JObject? then Refused(JsonInvalid)
    else
      var m := f.content.value.members;
      if SchemaVersion !in m || m[SchemaVersion] != JText(CAPSULE_V1)
      then Refused(LegacyFilenameUnsupported)
      else if PacketKey !in m || !m[PacketKey].JObject? || MissionRevision !in m[PacketKey].members
              || !m[PacketKey].members[MissionRevision].JInt?
              || m[PacketKey].members[MissionRevision].number < 0
      then Refused(PacketShapeInvalid)
      else Ok(m[PacketKey].members[MissionRevision].number)
  }

  function LoadFile(site: Site, name: FileName, f: File): Loaded<Capsule> {
    var id := IdentityOf(name, f);
    if !id.Ok? then Refused(id.code)
    else if !f.frozen || f.links != 1 then Refused(MemberMutable)
    else if f.content.None? then Refused(JsonInvalid)
    else LoadWire(site, id.value, name.sha, f.content.value)
  }

  predicate AllRecognised(d: Directory) { forall n :: n in d ==> Recognised(n) }

  predicate Identified(d: Directory) { forall n :: n in d ==> IdentityOf(n, d[n]).Ok? }

  function RevisionIn(d: Directory, n: FileName): nat
    requires Identified(d) && n in d
  {
    IdentityOf(n, d[n]).value
  }

  predicate Unambiguous(d: Directory)
    requires Identified(d)
  {
    forall a, b :: a in d && b in d && RevisionIn(d, a) == RevisionIn(d, b) ==> a == b
  }

  predicate Greatest(d: Directory, n: FileName)
    requires Identified(d) && n in d
  {
    forall x :: x in d ==> RevisionIn(d, x) <= RevisionIn(d, n)
  }

  /** The first member in name order that stands for no revision.  Of the names a listing admits only
      digest-only ones can fail, and their order is that of their digests. */
  ghost predicate FirstFault(d: Directory, n: FileName) {
    && n in d && n.Legacy? && !IdentityOf(n, d[n]).Ok?
    && forall x :: x in d && !IdentityOf(x, d[x]).Ok? && x != n ==> x.Legacy? && TextLess(n.sha, x.sha)
  }

  /** What the listing is refused for when some member stands for no revision. */
  ghost function FaultIn(d: Directory): Refusal {
    if n :| FirstFault(d, n) then IdentityOf(n, d[n]).code else MembersInvalid
  }

  /** There is one first fault, so the last branch of `FaultIn` is never taken. */
  lemma FirstFaultDecides(d: Directory, n: FileName)
    requires FirstFault(d, n)
    ensures FaultIn(d) == IdentityOf(n, d[n]).code
  {
    hide IdentityOf;
    forall m | FirstFault(d, m) ensures m == n {
      TextLessIsStrictOrder(n.sha, m.sha, n.sha);
    }
  }

  lemma OnlyLegacyFails(n: FileName, f: File)
    requires Recognised(n)
    ensures !IdentityOf(n, f).Ok? ==> n.Legacy?
  {
  }

  /** `load_native_tura_task_capsule` on the members of the task's directory. */
  ghost function Load(site: Site, d: Directory): Loaded<Capsule> {
    if !AllRecognised(d) then Refused(MembersInvalid)
    else if d == map[] then Refused(NotFound)
    else if !Identified(d) then Refused(FaultIn(d))
    else if !Unambiguous(d) then Refused(RevisionConflict)
    else if n :| n in d && Greatest(d, n) then LoadFile(site, n, d[n])
    else Refused(NotFound)
  }

  /** There is always a greatest revision, so the last branch of `Load` is never taken. */
  lemma {:induction false} GreatestExists(d: Directory) returns (n: FileName)
    requires d != map[] && Identified(d)
    ensures n in d && Greatest(d, n)
    decreases |d|
  {
    var some :| some in d;
    var rest := d - {some};
    assert d.Keys == rest.Keys + {some};
    if rest == map[] {
      n := some;
    } else {
      assert |rest| < |d| by { assert rest.Keys == d.Keys - {some}; }
      n := GreatestExists(rest);
      if RevisionIn(d, n) < RevisionIn(d, some) { n := some; }
    }
  }

  // ---------------------------------------------------------------- before a publication

  datatype Input = Input(mission: string, route: string, packet: TaskPacket, profile: Option<Profile>)

  datatype Prepared = Existing(name: FileName) | Fresh(capsule: Capsule) | Declined(code: Refusal)

  predicate SameInput(c: Capsule, i: Input) {
    c.packet == i.packet && c.mission == i.mission && c.route == i.route && c.profile == i.profile
  }

  /** The capsule an input would become, with its context read now. */
  function CapsuleFor(site: Site, i: Input): Loaded<Capsule> {
    if i.packet.body.context.None? then Ok(Capsule(site.task, i.mission, i.route, i.packet, i.profile, None))
    else
      var context := site.readContext(i.packet.body);
      if !context.Ok? then Refused(context.code)
      else Ok(Capsule(site.task, i.mission, i.route, i.packet, i.profile, Some(context.value)))
  }

  /** The checks of `publish_native_tura_task_capsule` up to the temporary file. */
  ghost function Prepare(site: Site, d: Directory, i: Input): Prepared {
    var packet := DecodePacket(site.names, EncodePacket(site.names, i.packet));
    var profile :=
      if i.profile.Some? then DecodeProfile(site.names, EncodeProfile(site.names, i.profile.value))
      else Refused(NotFound);
    var revision := i.packet.body.missionRevision;
    if !NonBlank(i.mission) || !NonBlank(i.route) then Declined(PacketShapeInvalid)
    else if !packet.Ok? then Declined(packet.code)
    else if i.profile.Some? && !profile.Ok? then Declined(profile.code)
    else if !AllRecognised(d) then Declined(MembersInvalid)
    else if !Identified(d) then Declined(FaultIn(d))
    else if n :| n in d && RevisionIn(d, n) == revision then
      if exists x :: x in d && x != n && RevisionIn(d, x) == revision then Declined(RevisionConflict)
      else
        var loaded := LoadFile(site, n, d[n]);
        if !loaded.Ok? then Declined(loaded.code)
        else if SameInput(loaded.value, i) then Existing(n) else Declined(RevisionConflict)
    else if exists n :: n in d && revision < RevisionIn(d, n) then Declined(RevisionStale)
    else
      var built := CapsuleFor(site, i);
      if !built.Ok? then Declined(built.code)
      else if revision < 0 then Declined(PacketShapeInvalid)
      else Fresh(built.value)
  }

  /** A caller's input: records their constructors made. */
  ghost predicate InputWellFormed(i: Input) {
    i.packet.Authentic() && (i.profile.Some? ==> Made(i.profile.value))
  }

  /** What may be written is sound, belongs to the input, and is newer than every file. */
  lemma FreshIsSound(site: Site, d: Directory, i: Input)
    requires Lawful(site) && InputWellFormed(i) && Prepare(site, d, i).Fresh?
    ensures var c := Prepare(site, d, i).capsule;
      && Sound(site, c) && SameInput(c, i) && c.packet.body.missionRevision >= 0
      && Identified(d) && AllRecognised(d)
      && (forall n :: n in d ==> RevisionIn(d, n) < c.packet.body.missionRevision)
  {
    hide NonBlank, DecodePacket, EncodePacket, DecodeProfile, EncodeProfile, Decodable, Made,
         IdentityOf, LoadFile;
    var packet := DecodePacket(site.names, EncodePacket(site.names, i.packet)).value;
    DecodesPacketIff(site.names, EncodePacket(site.names, i.packet), packet);
    EncodedTwice(site.names, i.packet, packet);
  }

  /** A constructed packet whose wire form decodes is the packet it decodes to. */
  lemma EncodedTwice(names: Names, p: TaskPacket, q: TaskPacket)
    requires p.Authentic() && Decodable(q) && EncodePacket(names, p) == EncodePacket(names, q)
    ensures p == q
  {
    hide EncodePacket, PacketTexts, BindingWellFormed;
    PacketReadsBack(names, p, q);
  }

  lemma PacketReadsBack(names: Names, p: TaskPacket, q: TaskPacket)
    requires EncodePacket(names, p) == EncodePacket(names, q) && Decodable(q)
    ensures p.body == q.body
  {
    EncodedMembers(names, p);
    EncodedMembers(names, q);
    var m := EncodePacket(names, p).members;
    hide EncodePacket, PacketMember, EncodeBinding, IsPacketKey, FieldsAt, PacketTexts, NonBlank;
    SameMembers(names, p, q);
    if p.body.context.Some? { BindingReadsBack(p.body.context.value, q.body.context.value); }
  }

  lemma SameMembers(names: Names, p: TaskPacket, q: TaskPacket)
    requires forall k: Name :: IsPacketKey(k) ==> PacketMember(names, p, k) == PacketMember(names, q, k)
    ensures p.body.(context := None) == q.body.(context := None)
  {
    hide TextList, VersionList, PacketIdText;
    assert PacketMember(names, p, MissionId) == PacketMember(names, q, MissionId);
    assert PacketMember(names, p, MissionRevision) == PacketMember(names, q, MissionRevision);
    assert PacketMember(names, p, MissionMode) == PacketMember(names, q, MissionMode);
    assert PacketMember(names, p, PredicateKey) == PacketMember(names, q, PredicateKey);
    assert PacketMember(names, p, RouteId) == PacketMember(names, q, RouteId);
    assert PacketMember(names, p, ExecutorId) == PacketMember(names, q, ExecutorId);
    assert PacketMember(names, p, ExpectedDelta) == PacketMember(names, q, ExpectedDelta);
    assert PacketMember(names, p, AbandonIf) == PacketMember(names, q, AbandonIf);
    assert PacketMember(names, p, RecoveryBudget) == PacketMember(names, q, RecoveryBudget);
    assert PacketMember(names, p, Scope) == PacketMember(names, q, Scope);
    assert PacketMember(names, p, ScopeVersions) == PacketMember(names, q, ScopeVersions);
    assert PacketMember(names, p, DestinationKey) == PacketMember(names, q, DestinationKey);
    ListsReadBack(p.body, q.body);
    DestinationReadsBack(p.body.destination, q.body.destination);
  }

  lemma DestinationReadsBack(a: Destination, b: Destination)
    requires DestinationJson(a) == DestinationJson(b)
    ensures a == b
  {
    assert DestinationJson(a).members[CoordinatorId] == DestinationJson(b).members[CoordinatorId];
    assert DestinationJson(a).members[ThreadId] == DestinationJson(b).members[ThreadId];
  }

  lemma ListsReadBack(a: PacketBody, b: PacketBody)
    requires TextList(a.scope) == TextList(b.scope)
    requires VersionList(a.scopeVersions) == VersionList(b.scopeVersions)
    ensures a.scope == b.scope && a.scopeVersions == b.scopeVersions
  {
  }

  lemma BindingReadsBack(a: ContextBinding, b: ContextBinding)
    requires EncodeBinding(a) == EncodeBinding(b)
    ensures a == b
  {
    forall k: Name | IsBindingKey(k) ensures BindingMember(a, k) == BindingMember(b, k) {
      assert EncodeBinding(a).members[k] == EncodeBinding(b).members[k];
    }
    assert BindingMember(a, TaskId) == BindingMember(b, TaskId);
    assert BindingMember(a, ArtifactRoot) == BindingMember(b, ArtifactRoot);
    assert BindingMember(a, ContextPath) == BindingMember(b, ContextPath);
    assert BindingMember(a, ContextSha) == BindingMember(b, ContextSha);
    assert BindingMember(a, JspacePath) == BindingMember(b, JspacePath);
    assert BindingMember(a, JspaceSha) == BindingMember(b, JspaceSha);
    assert BindingMember(a, GenerationId) == BindingMember(b, GenerationId);
    assert BindingMember(a, InputFingerprint) == BindingMember(b, InputFingerprint);
  }
}
