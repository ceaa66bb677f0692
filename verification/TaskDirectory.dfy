/** The directory of one task: publishing and loading as the program does them, step by step. */
module TaskDirectory {
  import opened Records
  import opened PacketCodec
  import opened CapsuleFiles
  import opened Capsules
  import opened CapsuleRaces
  import opened CapsuleSequence

  /** The earlier of two digest-only names. */
  function Earlier(first: Option<FileName>, n: FileName): (e: FileName)
    requires n.Legacy? && (first.Some? ==> first.value.Legacy?)
    ensures e.Legacy? && (e == n || first == Some(e))
    ensures e != n ==> TextLess(e.sha, n.sha)
    ensures first.Some? && e != first.value ==>
              forall t :: t == first.value.sha || TextLess(first.value.sha, t) ==> TextLess(e.sha, t)
  {
    if first.None? then n
    else
      assert forall t :: TextLess(n.sha, first.value.sha) && TextLess(first.value.sha, t) ==>
               TextLess(n.sha, t) by { OrderedBy(n.sha, first.value.sha); }
      if TextLess(first.value.sha, n.sha) then first.value
      else if first.value == n then n
      else OrderedBy(n.sha, first.value.sha); n
  }

  lemma OrderedBy(a: string, b: string)
    ensures TextLess(a, b) || TextLess(b, a) || a == b
    ensures forall t :: TextLess(a, b) && TextLess(b, t) ==> TextLess(a, t)
  {
    forall t ensures TextLess(a, b) && TextLess(b, t) ==> TextLess(a, t) {
      TextLessIsStrictOrder(a, b, t);
    }
    TextLessIsStrictOrder(a, b, a);
  }

  class TaskDirectory {
    const site: Site
    var members: Directory

    constructor (site: Site)
      ensures this.site == site && members == map[]
    {
      this.site := site;
      members := map[];
    }

    /** `_capsule_files`: whether every member has a capsule's name. */
    method Listed() returns (ok: bool)
      ensures ok <==> AllRecognised(members)
    {
      var pending := members.Keys;
      ok := true;
      while pending != {}
        invariant pending <= members.Keys
        invariant ok <==> forall n :: n in members && n !in pending ==> Recognised(n)
        decreases |pending|
      {
        var n :| n in pending;
        if !Recognised(n) { ok := false; }
        pending := pending - {n};
      }
    }

    /** The fault the listing stops at, if any member stands for no revision. */
    method Faulty() returns (fault: Option<Refusal>)
      requires AllRecognised(members)
      ensures fault.None? <==> Identified(members)
      ensures fault.Some? ==> fault.value == FaultIn(members)
    {
      hide IdentityOf, Recognised;
      var pending := members.Keys;
      var first: Option<FileName> := None;
      while pending != {}
        invariant pending <= members.Keys
        invariant first.None? ==> forall n :: n in members && n !in pending ==> IdentityOf(n, members[n]).Ok?
        invariant first.Some? ==>
          && first.value in members && first.value !in pending && first.value.Legacy?
          && !IdentityOf(first.value, members[first.value]).Ok?
          && forall x | x in members && x !in pending && x != first.value
               && !IdentityOf(x, members[x]).Ok? :: x.Legacy? && TextLess(first.value.sha, x.sha)
        decreases |pending|
      {
        var n :| n in pending;
        pending := pending - {n};
        if !IdentityOf(n, members[n]).Ok? {
          OnlyLegacyFails(n, members[n]);
          first := Some(Earlier(first, n));
        }
      }
      if first.None? { return None; }
      FirstFaultDecides(members, first.value);
      fault := Some(IdentityOf(first.value, members[first.value]).code);
    }

    /** The revision map of `load_native_tura_task_capsule`: the first member seen of each revision,
        and whether another shares one. */
    method Revisions() returns (revisions: map<nat, FileName>, conflict: bool)
      requires Identified(members)
      ensures forall n :: n in members ==> RevisionIn(members, n) in revisions
      ensures forall r :: r in revisions ==>
                revisions[r] in members && RevisionIn(members, revisions[r]) == r
      ensures conflict <==> !Unambiguous(members)
    {
      hide IdentityOf;
      var pending := members.Keys;
      revisions, conflict := map[], false;
      while pending != {}
        invariant pending <= members.Keys
        invariant forall n :: n in members && n !in pending ==> RevisionIn(members, n) in revisions
        invariant forall r :: r in revisions ==>
          && revisions[r] in members && revisions[r] !in pending
          && RevisionIn(members, revisions[r]) == r
        invariant !conflict ==> forall a, b | a in members && b in members
          && a !in pending && b !in pending && RevisionIn(members, a) == RevisionIn(members, b) ::
            a == b
        invariant conflict ==> !Unambiguous(members)
        decreases |pending|
      {
        var n :| n in pending;
        var revision := RevisionIn(members, n);
        if revision in revisions {
          conflict := true;
          assert n != revisions[revision];
        } else {
          revisions := revisions[revision := n];
        }
        pending := pending - {n};
      }
    }

    /** `max(revisions)`. */
    method Latest(revisions: map<nat, FileName>) returns (latest: nat)
      requires revisions != map[]
      ensures latest in revisions && forall r :: r in revisions ==> r <= latest
    {
      latest :| latest in revisions;
      var pending := revisions.Keys;
      while pending != {}
        invariant pending <= revisions.Keys && latest in revisions
        invariant forall r :: r in revisions && r !in pending ==> r <= latest
        decreases |pending|
      {
        var r :| r in pending;
        if r > latest { latest := r; }
        pending := pending - {r};
      }
    }

    /** `load_native_tura_task_capsule`. */
    method LoadCapsule() returns (r: Loaded<Capsule>)
      ensures r == Load(site, members)
    {
      hide IdentityOf, Recognised, LoadFile;
      var listed := Listed();
      if !listed { return Refused(MembersInvalid); }
      if members == map[] { return Refused(NotFound); }
      var fault := Faulty();
      if fault.Some? { return Refused(fault.value); }
      var revisions, conflict := Revisions();
      if conflict { return Refused(RevisionConflict); }
      var some :| some in members;
      assert RevisionIn(members, some) in revisions;
      var latest := Latest(revisions);
      r := LoadFile(site, revisions[latest], members[revisions[latest]]);
      ghost var n := LoadPicks(site, members);
      assert RevisionIn(members, n) in revisions;
      assert RevisionIn(members, n) == latest;
    }

    /** The members of one revision, and whether some member has a greater one. */
    method SameRevision(revision: int)
      returns (same: Option<FileName>, many: bool, newer: bool)
      requires Identified(members)
      ensures same.Some? ==> same.value in members && RevisionIn(members, same.value) == revision
      ensures same.None? ==> forall n :: n in members ==> RevisionIn(members, n) != revision
      ensures many <==> exists a, b ::
                          && a in members && b in members && a != b
                          && RevisionIn(members, a) == revision && RevisionIn(members, b) == revision
      ensures newer <==> exists n :: n in members && revision < RevisionIn(members, n)
    {
      hide IdentityOf;
      var pending := members.Keys;
      same, many, newer := None, false, false;
      while pending != {}
        invariant pending <= members.Keys
        invariant same.Some? ==> && same.value in members && same.value !in pending
                                 && RevisionIn(members, same.value) == revision
        invariant same.None? ==> forall n :: n in members && n !in pending ==>
          RevisionIn(members, n) != revision
        invariant many ==> exists a, b ::
          && a in members && b in members && a != b
          && RevisionIn(members, a) == revision && RevisionIn(members, b) == revision
        invariant !many && same.Some? ==>
          forall n | n in members && n !in pending && RevisionIn(members, n) == revision ::
            n == same.value
        invariant newer <==> exists n :: n in members && n !in pending && revision < RevisionIn(members, n)
        decreases |pending|
      {
        var n :| n in pending;
        pending := pending - {n};
        if RevisionIn(members, n) == revision {
          if same.Some? { many := true; } else { same := Some(n); }
        } else if revision < RevisionIn(members, n) {
          newer := true;
        }
      }
    }

    /** The checks before the temporary file. */
    method Check(i: Input) returns (p: Prepared)
      ensures p == Prepare(site, members, i)
    {
      hide IdentityOf, Recognised, LoadFile, NonBlank, EncodePacket, DecodePacket, EncodeProfile,
           DecodeProfile;
      var packet := DecodePacket(site.names, EncodePacket(site.names, i.packet));
      var revision := i.packet.body.missionRevision;
      if !NonBlank(i.mission) || !NonBlank(i.route) { return Declined(PacketShapeInvalid); }
      if !packet.Ok? { return Declined(packet.code); }
      if i.profile.Some? {
        var profile := DecodeProfile(site.names, EncodeProfile(site.names, i.profile.value));
        if !profile.Ok? { return Declined(profile.code); }
      }
      var listed := Listed();
      if !listed { return Declined(MembersInvalid); }
      var fault := Faulty();
      if fault.Some? { return Declined(fault.value); }
      var same, many, newer := SameRevision(revision);
      if same.Some? {
        if many { return Declined(RevisionConflict); }
        var loaded := LoadFile(site, same.value, members[same.value]);
        if !loaded.Ok? { return Declined(loaded.code); }
        return if SameInput(loaded.value, i) then Existing(same.value) else Declined(RevisionConflict);
      }
      if newer { return Declined(RevisionStale); }
      var built := CapsuleFor(site, i);
      if !built.Ok? { return Declined(built.code); }
      return if revision < 0 then Declined(PacketShapeInvalid) else Fresh(built.value);
    }

    /** `publish_native_tura_task_capsule` with nobody else at work: temporary file, link, unlink. */
    method PublishCapsule(i: Input) returns (r: Loaded<FileName>)
      requires Lawful(site) && InputWellFormed(i) && Temporary(0) !in members
      modifies this
      ensures forall seen: set<Capsule> ::
                members == Publish(site, World(old(members), map[], seen), i).dir
      ensures match Prepare(site, old(members), i)
              case Existing(n) => r == Loaded<FileName>.Ok(n)
              case Declined(code) => r == Refused(code)
              case Fresh(c) => c.packet.body.missionRevision >= 0 && r == Loaded<FileName>.Ok(NameOf(site, c))
    {
      hide Prepare, NameOf, FileOf;
      var p := Check(i);
      match p {
        case Existing(n) => return Loaded.Ok(n);
        case Declined(code) => return Refused(code);
        case Fresh(c) =>
          FreshNameIsNew(site, members, i);
          assert NameOf(site, c).Named? by { IsNamed(site, c); }
          ghost var before := members;
          members := members[Temporary(0) := FileOf(site, c, 1)];
          members := members[NameOf(site, c) := FileOf(site, c, 2)][Temporary(0) := FileOf(site, c, 2)];
          members := members - {Temporary(0)};
          members := members[NameOf(site, c) := FileOf(site, c, 1)];
          assert members == before[NameOf(site, c) := FileOf(site, c, 1)];
          return Loaded.Ok(NameOf(site, c));
      }
    }
  }
}
