/** What a capsule file holds, which files load, and what becomes of an input, member by member. */
module CapsuleLaws {
  import opened Records
  import opened PacketCodec
  import opened CapsuleFiles
  import opened Capsules

  // ---------------------------------------------------------------- the wire form

  /** The members of a published capsule. */
  lemma PayloadSpells(names: Names, c: Capsule)
    ensures var m := Payload(names, c);
      && m.Keys == (set k | IsPayloadKey(c.profile.Some?, c.material.Some?, k))
      && TaskName in m && m[TaskName] == JText(c.task)
      && MissionText in m && m[MissionText] == JText(c.mission)
      && RouteText in m && m[RouteText] == JText(c.route)
      && PacketKey in m && m[PacketKey] == EncodePacket(names, c.packet)
      && CallbackId in m && m[CallbackId] == JText(names.callback(
           CallbackPayload(c.task, c.mission, c.route, PacketIdText(names, c.packet.id),
                           c.packet.body.destination.threadId,
                           match c.profile case None => None case Some(p) => Some(names.profile(p)))))
      && SchemaVersion in m && m[SchemaVersion] == JText(
           if c.profile.Some? then "native-tura-task-capsule/v3"
           else if c.material.Some? then "native-tura-task-capsule/v2"
           else "native-tura-task-capsule/v1")
      && (ProfileKey in m <==> c.profile.Some?) && (MaterialKey in m <==> c.material.Some?)
      && (c.profile.Some? ==> m[ProfileKey] == EncodeProfile(names, c.profile.value))
      && (c.material.Some? ==> m[MaterialKey] == c.material.value)
  {
    hide EncodePacket, EncodeProfile;
  }

  /** Different texts for different contents. */
  ghost predicate Collisionless(names: Names) {
    && (forall a, b :: names.callback(a) == names.callback(b) ==> a == b)
    && (forall a, b :: names.profile(a) == names.profile(b) ==> a == b)
    && (forall a, b :: names.packet(a) == names.packet(b) ==> a == b)
  }

  /** The callback binds the exact task input: task, mission, route, packet and profile. */
  lemma CallbackBindsInput(names: Names, a: Capsule, b: Capsule)
    requires Collisionless(names) && a.packet.id == Of(a.packet.body) && b.packet.id == Of(b.packet.body)
    requires CallbackOf(names, a.task, a.mission, a.route, a.packet, a.profile)
             == CallbackOf(names, b.task, b.mission, b.route, b.packet, b.profile)
    ensures a.task == b.task && a.mission == b.mission && a.route == b.route
    ensures a.packet == b.packet && a.profile == b.profile
  {
    assert names.packet(a.packet.body) == names.packet(b.packet.body) ==>
             a.packet.body == b.packet.body;
  }

  // ---------------------------------------------------------------- which files load

  /** The published members, with the profile in this form. */
  function PayloadWith(names: Names, c: Capsule, form: Json): map<Name, Json> {
    if c.profile.Some? then Payload(names, c)[ProfileKey := form] else Payload(names, c)
  }

  /** The object is a sound capsule's wire form, with its profile in a form that decodes to it. */
  ghost predicate Spells(site: Site, m: map<Name, Json>, c: Capsule, form: Json) {
    && Sound(site, c) && (c.profile.Some? ==> DecodeProfile(site.names, form) == Ok(c.profile.value))
    && CapsuleSha in m && m - {CapsuleSha} == PayloadWith(site.names, c, form)
    && m[CapsuleSha] == JText(site.names.capsule(m - {CapsuleSha}))
  }

  lemma PayloadWithSpells(names: Names, c: Capsule, form: Json)
    ensures var m := PayloadWith(names, c, form);
      && m.Keys == (set k | IsPayloadKey(c.profile.Some?, c.material.Some?, k))
      && m[TaskName] == JText(c.task) && m[MissionText] == JText(c.mission)
      && m[RouteText] == JText(c.route) && m[PacketKey] == EncodePacket(names, c.packet)
      && m[CallbackId] == JText(CallbackOf(names, c.task, c.mission, c.route, c.packet, c.profile))
      && m[SchemaVersion] == JText(SchemaOf(c.profile.Some?, c.material.Some?))
      && (c.profile.Some? ==> m[ProfileKey] == form)
      && (c.material.Some? ==> m[MaterialKey] == c.material.value)
  {
    hide EncodePacket, EncodeProfile, CallbackOf, SchemaOf;
  }

  /** A sound capsule's object loads under its own revision and digest. */
  lemma SpelledLoads(site: Site, v: Json, c: Capsule, form: Json)
    requires v.JObject? && v.unknown == {} && Spells(site, v.members, c, form)
    ensures LoadWire(site, c.packet.body.missionRevision, site.names.capsule(v.members - {CapsuleSha}),
                     v) == Ok(c)
  {
    hide NonBlank, CallbackOf, Payload, EncodePacket, EncodeProfile, DecodePacket, DecodeProfile,
         Decodable, Made, PayloadWith, CAPSULE_V1, CAPSULE_V2, CAPSULE_V3, LoadMembers, CapsuleKeys;
    var m := v.members;
    PayloadWithSpells(site.names, c, form);
    SchemasDiffer();
    var rest := m - {CapsuleSha};
    assert forall k :: k in rest ==> m[k] == rest[k];
    KeysOfSpelled(m, c.profile.Some?, c.material.Some?);
    MaterialIsListed(c);
    var version := if c.profile.Some? then V3 else if c.material.Some? then V2 else V1;
    assert SchemaVersion in rest && TaskName in rest;
    assert m[SchemaVersion] == rest[SchemaVersion] && m[TaskName] == rest[TaskName];
    assert VersionOf(v) == Some(version);
    assert KeysFit(v, version);
    KeysGiveCore(v, version);
    SpelledMembersLoad(site, m, c, form, version);
  }

  lemma KeysOfSpelled(m: map<Name, Json>, profiled: bool, bound: bool)
    requires CapsuleSha in m
    requires (m - {CapsuleSha}).Keys == (set k | IsPayloadKey(profiled, bound, k))
    ensures m.Keys == CapsuleKeys(profiled, bound)
    ensures MaterialKey in m <==> bound
  {
    forall k ensures k in m.Keys <==> k in CapsuleKeys(profiled, bound) {
      assert k != CapsuleSha ==> (k in m <==> k in m - {CapsuleSha});
    }
    assert MaterialKey in m <==> MaterialKey in CapsuleKeys(profiled, bound);
  }

  lemma SpelledMembersLoad(site: Site, m: map<Name, Json>, c: Capsule, form: Json,
                           version: CapsuleVersion)
    requires Spells(site, m, c, form) && Core(m) && (version.V3? ==> ProfileKey in m)
    requires version == if c.profile.Some? then V3 else if c.material.Some? then V2 else V1
    requires MaterialKey in m <==> c.material.Some?
    ensures LoadMembers(site, c.packet.body.missionRevision, site.names.capsule(m - {CapsuleSha}), m,
                        version) == Ok(c)
  {
    hide NonBlank, CallbackOf, Payload, EncodePacket, EncodeProfile, DecodePacket, DecodeProfile,
         Decodable, Made, PayloadWith, TextAt;
    PayloadWithSpells(site.names, c, form);
    var rest := m - {CapsuleSha};
    assert forall k :: k in rest ==> m[k] == rest[k];
    DecodesPacketIff(site.names, EncodePacket(site.names, c.packet), c.packet);
    TextsRead(c);
  }

  lemma TextsRead(c: Capsule)
    ensures NonBlank(c.mission) ==> TextAt(JText(c.mission)) == Some(c.mission)
    ensures NonBlank(c.route) ==> TextAt(JText(c.route)) == Some(c.route)
  {
  }

  /** Whatever loads is a sound capsule's object, named after its packet's revision and its digest. */
  lemma LoadedSpells(site: Site, revision: int, sha: string, v: Json, c: Capsule) returns (form: Json)
    requires LoadWire(site, revision, sha, v) == Ok(c)
    ensures v.JObject? && v.unknown == {} && Spells(site, v.members, c, form)
    ensures revision == c.packet.body.missionRevision
    ensures sha == site.names.capsule(v.members - {CapsuleSha})
  {
    hide NonBlank, CallbackOf, Payload, EncodePacket, EncodeProfile, DecodePacket, DecodeProfile,
         Decodable, Made, PayloadWith, CAPSULE_V1, CAPSULE_V2, CAPSULE_V3, LoadMembers, CapsuleKeys,
         SchemaOf;
    var m, version := v.members, VersionOf(v).value;
    KeysGiveCore(v, version);
    form := if ProfileKey in m then m[ProfileKey] else JNull;
    var bound := version.V2? || (version.V3? && MaterialKey in m);
    assert m.Keys == CapsuleKeys(version.V3?, bound);
    ListedMaterial(version.V3?, bound);
    LoadedParts(site, revision, sha, m, version, c);
    assert m[SchemaVersion] == JText(SchemaOf(version.V3?, bound)) by { SchemaIs(v, version, bound); }
    SameObject(site, m, c, form);
  }

  lemma ListedMaterial(profiled: bool, bound: bool)
    ensures MaterialKey in CapsuleKeys(profiled, bound) <==> bound
    ensures ProfileKey in CapsuleKeys(profiled, bound) <==> profiled
  {
  }

  lemma SchemaIs(v: Json, version: CapsuleVersion, bound: bool)
    requires v.JObject? && VersionOf(v) == Some(version)
    requires bound == (version.V2? || (version.V3? && MaterialKey in v.members))
    ensures SchemaVersion in v.members
    ensures v.members[SchemaVersion] == JText(SchemaOf(version.V3?, bound))
  {
    hide CAPSULE_V1, CAPSULE_V2, CAPSULE_V3;
    SchemasDiffer();
  }

  /** What the loader has checked of the members. */
  lemma LoadedParts(site: Site, revision: int, sha: string, m: map<Name, Json>,
                    version: CapsuleVersion, c: Capsule)
    requires Core(m) && (version.V3? ==> ProfileKey in m) && m[TaskName] == JText(site.task)
    requires version.V1? ==> MaterialKey !in m
    requires version.V2? ==> MaterialKey in m
    requires LoadMembers(site, revision, sha, m, version) == Ok(c)
    ensures c.task == site.task && revision == c.packet.body.missionRevision
    ensures NonBlank(c.mission) && NonBlank(c.route) && Decodable(c.packet)
    ensures m[MissionText] == JText(c.mission) && m[RouteText] == JText(c.route)
    ensures m[PacketKey] == EncodePacket(site.names, c.packet)
    ensures m[CallbackId]
            == JText(CallbackOf(site.names, c.task, c.mission, c.route, c.packet, c.profile))
    ensures c.profile.Some? <==> version.V3?
    ensures c.profile.Some? ==> DecodeProfile(site.names, m[ProfileKey]) == Ok(c.profile.value)
    ensures c.material.Some? <==> MaterialKey in m
    ensures c.material.Some? <==> c.packet.body.context.Some?
    ensures c.material.Some? ==> m[MaterialKey] == c.material.value && c.material.value.JObject?
                                 && site.accepts(c.packet.body, c.material.value)
    ensures m[CapsuleSha] == JText(site.names.capsule(m - {CapsuleSha}))
    ensures sha == site.names.capsule(m - {CapsuleSha})
  {
    hide NonBlank, CallbackOf, EncodePacket, DecodePacket, DecodeProfile, Decodable;
    DecodesPacketIff(site.names, m[PacketKey], DecodePacket(site.names, m[PacketKey]).value);
    TextIsItself(m[MissionText]);
    TextIsItself(m[RouteText]);
  }

  lemma TextIsItself(v: Json)
    ensures TextAt(v).Some? ==> v == JText(TextAt(v).value) && NonBlank(TextAt(v).value) && v.JText?
                                && v.text == TextAt(v).value
  {
  }

  lemma SameObject(site: Site, m: map<Name, Json>, c: Capsule, form: Json)
    requires c.task == site.task && NonBlank(c.mission) && NonBlank(c.route) && Decodable(c.packet)
    requires m.Keys == CapsuleKeys(c.profile.Some?, c.material.Some?)
    requires m[TaskName] == JText(c.task) && m[MissionText] == JText(c.mission)
    requires m[RouteText] == JText(c.route) && m[PacketKey] == EncodePacket(site.names, c.packet)
    requires m[CallbackId]
             == JText(CallbackOf(site.names, c.task, c.mission, c.route, c.packet, c.profile))
    requires m[SchemaVersion] == JText(SchemaOf(c.profile.Some?, c.material.Some?))
    requires c.profile.Some? ==> m[ProfileKey] == form
                                 && DecodeProfile(site.names, form) == Ok(c.profile.value)
    requires c.material.Some? <==> c.packet.body.context.Some?
    requires c.material.Some? ==> m[MaterialKey] == c.material.value && c.material.value.JObject?
                                  && site.accepts(c.packet.body, c.material.value)
    requires m[CapsuleSha] == JText(site.names.capsule(m - {CapsuleSha}))
    ensures Spells(site, m, c, form)
  {
    hide NonBlank, CallbackOf, EncodePacket, EncodeProfile, DecodePacket, DecodeProfile, Decodable,
         Made, SchemaOf, Payload, PayloadWith, CapsuleKeys;
    PayloadWithSpells(site.names, c, form);
    SameMembers(m, PayloadWith(site.names, c, form), c.profile.Some?, c.material.Some?);
    if c.profile.Some? { DecodesProfileIff(site.names, form, c.profile.value); }
  }

  /** Objects of a capsule's members agree when each member does. */
  lemma SameMembers(m: map<Name, Json>, p: map<Name, Json>, profiled: bool, bound: bool)
    requires m.Keys == CapsuleKeys(profiled, bound)
    requires p.Keys == (set k | IsPayloadKey(profiled, bound, k))
    requires m[TaskName] == p[TaskName] && m[MissionText] == p[MissionText]
    requires m[RouteText] == p[RouteText] && m[PacketKey] == p[PacketKey]
    requires m[CallbackId] == p[CallbackId] && m[SchemaVersion] == p[SchemaVersion]
    requires profiled ==> m[ProfileKey] == p[ProfileKey]
    requires bound ==> m[MaterialKey] == p[MaterialKey]
    ensures CapsuleSha in m && m - {CapsuleSha} == p
  {
    var rest := m - {CapsuleSha};
    forall k ensures k in rest.Keys <==> k in p.Keys {}
    forall k | k in rest ensures rest[k] == p[k] {}
  }

  /** Exactly the objects of sound capsules load, each as its own capsule, under the revision of its
      packet and the digest of its members and no other. */
  lemma LoadsIff(site: Site, revision: int, sha: string, v: Json, c: Capsule)
    ensures LoadWire(site, revision, sha, v) == Ok(c) <==>
            && v.JObject? && v.unknown == {} && (exists form :: Spells(site, v.members, c, form))
            && revision == c.packet.body.missionRevision
            && sha == site.names.capsule(v.members - {CapsuleSha})
  {
    hide LoadWire, Spells;
    if LoadWire(site, revision, sha, v) == Ok(c) {
      var form := LoadedSpells(site, revision, sha, v, c);
    }
    if && v.JObject? && v.unknown == {} && revision == c.packet.body.missionRevision
       && sha == site.names.capsule(v.members - {CapsuleSha})
    {
      forall form | Spells(site, v.members, c, form) ensures LoadWire(site, revision, sha, v) == Ok(c) {
        SpelledLoads(site, v, c, form);
      }
    }
  }

  // ---------------------------------------------------------------- files and directories

  /** A file loads when its name is a capsule's, it is frozen with a single link, and its content is the
      object its name binds; a digest-only name stands for the first version alone. */
  lemma FileLoadsIff(site: Site, n: FileName, f: File, c: Capsule)
    ensures LoadFile(site, n, f) == Ok(c) <==>
            && f.frozen && f.links == 1 && f.content.Some?
            && (match n
                case Named(stem, sha) =>
                  && |stem| == 20 && AllDigits(stem)
                  && LoadWire(site, Parse(stem), sha, f.content.value) == Ok(c)
                case Legacy(sha) =>
                  && LoadWire(site, c.packet.body.missionRevision, sha, f.content.value) == Ok(c)
                  && c.profile.None? && c.material.None? && c.packet.body.missionRevision >= 0
                case _ => false)
  {
    hide LoadWire, Parse;
    if n.Legacy? && f.content.Some? {
      var v := f.content.value;
      if IdentityOf(n, f).Ok? && LoadWire(site, IdentityOf(n, f).value, n.sha, v) == Ok(c) {
        var form := LoadedSpells(site, IdentityOf(n, f).value, n.sha, v, c);
        FirstVersionHas(site, v.members, c, form);
      }
      if LoadWire(site, c.packet.body.missionRevision, n.sha, v) == Ok(c) {
        var form := LoadedSpells(site, c.packet.body.missionRevision, n.sha, v, c);
        FirstVersionHas(site, v.members, c, form);
      }
    }
  }

  /** The version and revision a capsule's object shows. */
  lemma FirstVersionHas(site: Site, m: map<Name, Json>, c: Capsule, form: Json)
    requires Spells(site, m, c, form)
    ensures SchemaVersion in m && PacketKey in m && m[PacketKey].JObject?
    ensures m[SchemaVersion] == JText(CAPSULE_V1) <==> c.profile.None? && c.material.None?
    ensures MissionRevision in m[PacketKey].members
    ensures m[PacketKey].members[MissionRevision] == JInt(c.packet.body.missionRevision)
  {
    hide Sound, CallbackOf, EncodeProfile, Payload, PayloadWith, DecodeProfile, EncodePacket,
         CAPSULE_V1, CAPSULE_V2, CAPSULE_V3;
    PayloadWithSpells(site.names, c, form);
    SchemasDiffer();
    var rest := m - {CapsuleSha};
    assert SchemaVersion in rest && PacketKey in rest;
    assert m[SchemaVersion] == rest[SchemaVersion] && m[PacketKey] == rest[PacketKey];
    RevisionIsEncoded(site.names, c.packet);
  }

  lemma RevisionIsEncoded(names: Names, p: TaskPacket)
    ensures var v := EncodePacket(names, p);
      && v.JObject? && MissionRevision in v.members
      && v.members[MissionRevision] == JInt(p.body.missionRevision)
  {
    EncodedMembers(names, p);
  }

  /** No two members stand for one revision. */
  ghost predicate OneEach(d: Directory)
    requires Identified(d)
  {
    forall a, b | a in d && b in d && a != b :: RevisionIn(d, a) != RevisionIn(d, b)
  }

  /** What each answer of a load means, whatever the directory holds. */
  lemma LoadAnsweredIff(site: Site, d: Directory)
    ensures var r := Load(site, d);
      && (forall c :: r == Ok(c) <==>
            && AllRecognised(d) && Identified(d)
            && exists n :: && n in d && LoadFile(site, n, d[n]) == Ok(c)
                           && (forall x :: x in d && x != n ==> RevisionIn(d, x) < RevisionIn(d, n))
                           && OneEach(d))
      && (!AllRecognised(d) ==> r == Refused(MembersInvalid))
      && (d == map[] ==> r == Refused(NotFound))
      && (AllRecognised(d) && d != map[] && Identified(d) && !OneEach(d) ==>
            r == Refused(RevisionConflict))
  {
    hide IdentityOf, Recognised, LoadFile;
    if AllRecognised(d) && d != map[] && Identified(d) && Unambiguous(d) {
      var n := GreatestExists(d);
      forall x | x in d && Greatest(d, x) ensures x == n {
        assert RevisionIn(d, x) == RevisionIn(d, n);
      }
    }
  }

  // ---------------------------------------------------------------- inputs

  /** The input itself is in order: texts, packet and profile. */
  ghost predicate Presentable(site: Site, i: Input) {
    NonBlank(i.mission) && NonBlank(i.route) && Decodable(i.packet)
  }

  /** The capsule is of this very input. */
  predicate IsOf(c: Capsule, i: Input) {
    && c.packet == i.packet && c.mission == i.mission && c.route == i.route
    && (if i.profile.Some? then c.profile == Some(i.profile.value) else c.profile.None?)
  }

  /** The one member of the revision, if there is exactly one. */
  ghost predicate OnlyOneAt(d: Directory, n: FileName, revision: int)
    requires Identified(d)
  {
    && n in d && RevisionIn(d, n) == revision
    && forall x :: x in d && RevisionIn(d, x) == revision ==> x == n
  }

  /** What becomes of an input, in a directory every member of which stands for a revision: the member of
      its revision if it holds this very input, a conflict if it holds another or there are several, stale
      under a newer revision, and otherwise the capsule of the input with its context read now. */
  lemma InputAnsweredIff(site: Site, d: Directory, i: Input)
    requires InputWellFormed(i) && Presentable(site, i) && AllRecognised(d) && Identified(d)
    ensures var p, revision := Prepare(site, d, i), i.packet.body.missionRevision;
            var taken := exists n :: n in d && RevisionIn(d, n) == revision;
            var stale := exists n :: n in d && RevisionIn(d, n) > revision;
      && (forall n :: p == Existing(n) <==>
            && OnlyOneAt(d, n, revision) && LoadFile(site, n, d[n]).Ok?
            && IsOf(LoadFile(site, n, d[n]).value, i))
      && (!taken && stale ==> p == Declined(RevisionStale))
      && (p.Fresh? <==> && !taken && !stale && revision >= 0
                        && (i.packet.body.context.Some? ==> site.readContext(i.packet.body).Ok?))
      && (p.Fresh? ==> && IsOf(p.capsule, i) && p.capsule.task == site.task
                       && p.capsule.material == (if i.packet.body.context.None? then None
                                                 else Some(site.readContext(i.packet.body).value)))
      && (taken && (forall n :: !OnlyOneAt(d, n, revision)) ==> p == Declined(RevisionConflict))
      && (forall n | OnlyOneAt(d, n, revision) && LoadFile(site, n, d[n]).Ok?
                     && !IsOf(LoadFile(site, n, d[n]).value, i) :: p == Declined(RevisionConflict))
  {
    hide NonBlank, EncodePacket, DecodePacket, EncodeProfile, DecodeProfile, Decodable, IdentityOf,
         Recognised, LoadFile, Made;
    InputReads(site, i);
    forall n | n in d && RevisionIn(d, n) == i.packet.body.missionRevision
      && !exists x :: x in d && x != n && RevisionIn(d, x) == i.packet.body.missionRevision
      ensures OnlyOneAt(d, n, i.packet.body.missionRevision)
    {
    }
  }

  lemma InputReads(site: Site, i: Input)
    requires InputWellFormed(i) && Presentable(site, i)
    ensures DecodePacket(site.names, EncodePacket(site.names, i.packet)).Ok?
    ensures i.profile.Some? ==>
              DecodeProfile(site.names, EncodeProfile(site.names, i.profile.value)).Ok?
  {
    hide EncodePacket, DecodePacket, EncodeProfile, DecodeProfile, Decodable, NonBlank, Made;
    DecodesPacketIff(site.names, EncodePacket(site.names, i.packet), i.packet);
    if i.profile.Some? { ProfileRoundTrip(site.names, i.profile.value); }
  }
}
