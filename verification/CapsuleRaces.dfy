/** Any number of publishers and loaders of one task, interleaved file operation by file operation. */
module CapsuleRaces {
  import opened Records
  import opened PacketCodec
  import opened CapsuleFiles
  import opened Capsules

  /** A publisher past its checks: before its temporary file, with it, and with the capsule linked. */
  datatype Publisher = Ready(capsule: Capsule) | Written(capsule: Capsule) | Linked(capsule: Capsule)

  /** `published` remembers every capsule ever linked; the program keeps no such record. */
  datatype World = World(dir: Directory, publishers: map<nat, Publisher>, published: set<Capsule>)

  const NOTHING: World := World(map[], map[], {})

  datatype Op =
    | Begin(k: nat, input: Input)
    | MakeTemporary(k: nat)
    | Link(k: nat)
    | Unlink(k: nat)
    | Abort(k: nat)

  function NameOf(site: Site, c: Capsule): FileName
    requires c.packet.body.missionRevision >= 0
  {
    FileNameFor(c.packet.body.missionRevision, ShaOf(site.names, c))
  }

  function FileOf(site: Site, c: Capsule, links: nat): File {
    File(Some(WireOf(site.names, c)), true, links)
  }

  /** Publishers act only in their phase.  A publisher that stops for ever models a crash: its
      temporary file stays. */
  ghost predicate CanDo(site: Site, w: World, op: Op) {
    match op
    case Begin(k, i) => k !in w.publishers && InputWellFormed(i)
    case MakeTemporary(k) => k in w.publishers && w.publishers[k].Ready?
    case Link(k) => k in w.publishers && w.publishers[k].Written?
                    && w.publishers[k].capsule.packet.body.missionRevision >= 0
    case Unlink(k) => k in w.publishers && w.publishers[k].Linked?
                      && w.publishers[k].capsule.packet.body.missionRevision >= 0
    case Abort(k) => k in w.publishers && w.publishers[k].Written?
  }

  /** One file operation.  Linking fails when the name exists; the temporary file is then removed. */
  ghost function Do(site: Site, w: World, op: Op): World
    requires CanDo(site, w, op)
  {
    match op
    case Begin(k, i) =>
      var prepared := Prepare(site, w.dir, i);
      if prepared.Fresh? then w.(publishers := w.publishers[k := Ready(prepared.capsule)]) else w
    case MakeTemporary(k) =>
      var c := w.publishers[k].capsule;
      w.(dir := w.dir[Temporary(k) := FileOf(site, c, 1)],
         publishers := w.publishers[k := Written(c)])
    case Link(k) =>
      var c := w.publishers[k].capsule;
      if NameOf(site, c) in w.dir then
        w.(dir := w.dir - {Temporary(k)}, publishers := w.publishers - {k})
      else
        World(w.dir[NameOf(site, c) := FileOf(site, c, 2)][Temporary(k) := FileOf(site, c, 2)],
              w.publishers[k := Linked(c)], w.published + {c})
    case Unlink(k) =>
      var c := w.publishers[k].capsule;
      w.(dir := (w.dir - {Temporary(k)})[NameOf(site, c) := FileOf(site, c, 1)],
         publishers := w.publishers - {k})
    case Abort(k) => w.(dir := w.dir - {Temporary(k)}, publishers := w.publishers - {k})
  }

  ghost function After(site: Site, ops: seq<Op>): World {
    if |ops| == 0 then NOTHING
    else
      var w := After(site, ops[..|ops| - 1]);
      if CanDo(site, w, ops[|ops| - 1]) then Do(site, w, ops[|ops| - 1]) else w
  }

  // ---------------------------------------------------------------- invariant

  ghost predicate Publishable(site: Site, c: Capsule) {
    Sound(site, c) && c.packet.body.missionRevision >= 0
  }

  ghost predicate PublishersFit(site: Site, w: World) {
    forall k :: k in w.publishers ==>
      && Publishable(site, w.publishers[k].capsule)
      && (!w.publishers[k].Ready? ==> Temporary(k) in w.dir)
      && (w.publishers[k].Linked? ==>
            && w.publishers[k].capsule in w.published
            && NameOf(site, w.publishers[k].capsule) in w.dir
            && w.dir[NameOf(site, w.publishers[k].capsule)] == FileOf(site, w.publishers[k].capsule, 2))
  }

  ghost predicate PublishedFit(site: Site, w: World) {
    forall c :: c in w.published ==> Publishable(site, c) && NameOf(site, c) in w.dir
  }

  /** A file is a publisher's temporary or a published capsule under its own name; a second link means
      its publisher still holds the temporary. */
  ghost predicate MemberFits(site: Site, w: World, n: FileName)
    requires n in w.dir
  {
    match n
    case Temporary(k) => k in w.publishers && !w.publishers[k].Ready?
    case Named(_, _) =>
      exists c :: c in w.published && Publishable(site, c) && NameOf(site, c) == n
        && (w.dir[n] == FileOf(site, c, 1)
            || (w.dir[n] == FileOf(site, c, 2)
                && exists k :: k in w.publishers && w.publishers[k] == Linked(c)))
    case _ => false
  }

  ghost predicate MembersFit(site: Site, w: World) {
    forall n :: n in w.dir ==> MemberFits(site, w, n)
  }

  /** Two publishers never hold a link to the same capsule. */
  ghost predicate LinkersApart(site: Site, w: World) {
    forall j, k | j in w.publishers && k in w.publishers
      && w.publishers[j].Linked? && w.publishers[k].Linked?
      && w.publishers[j].capsule == w.publishers[k].capsule :: j == k
  }

  ghost predicate WorldInv(site: Site, w: World) {
    && PublishersFit(site, w) && PublishedFit(site, w) && MembersFit(site, w)
    && LinkersApart(site, w)
  }

  /** A published capsule is the only one of its name: digests do not collide and the wire form
      determines the capsule. */
  lemma NameFixesCapsule(site: Site, a: Capsule, b: Capsule)
    requires Lawful(site) && Publishable(site, a) && Publishable(site, b)
    requires NameOf(site, a) == NameOf(site, b)
    ensures a == b
  {
    hide NonBlank, LoadWire, Payload, Decodable, Made, WireOf;
    NamesAreInjective(a.packet.body.missionRevision, b.packet.body.missionRevision,
                      ShaOf(site.names, a), ShaOf(site.names, b));
    CapsuleRoundTrip(site, a);
    CapsuleRoundTrip(site, b);
    SamePayloadSameWire(site, a, b);
  }

  lemma SamePayloadSameWire(site: Site, a: Capsule, b: Capsule)
    requires Payload(site.names, a) == Payload(site.names, b)
    ensures WireOf(site.names, a) == WireOf(site.names, b)
  {
  }

  lemma ReadyKeeps(site: Site, w: World, k: nat, c: Capsule)
    requires WorldInv(site, w) && k !in w.publishers && Publishable(site, c)
    ensures WorldInv(site, w.(publishers := w.publishers[k := Ready(c)]))
  {
    hide Publishable, FileOf, NameOf, MembersFit;
    ReadyKeepsMembers(site, w, k, c);
  }

  lemma ReadyKeepsMembers(site: Site, w: World, k: nat, c: Capsule)
    requires MembersFit(site, w) && k !in w.publishers
    ensures MembersFit(site, w.(publishers := w.publishers[k := Ready(c)]))
  {
    hide Publishable, FileOf, FileNameFor, ShaOf, MemberFits;
    var x := w.(publishers := w.publishers[k := Ready(c)]);
    forall n | n in x.dir ensures MemberFits(site, x, n) { OtherMembersStay(site, w, x, n); }
  }

  lemma BeginKeeps(site: Site, w: World, k: nat, i: Input)
    requires Lawful(site) && WorldInv(site, w) && CanDo(site, w, Begin(k, i))
    ensures WorldInv(site, Do(site, w, Begin(k, i)))
  {
    hide WorldInv, Sound, Lawful, Prepare, InputWellFormed;
    if Prepare(site, w.dir, i).Fresh? {
      FreshIsSound(site, w.dir, i);
      ReadyKeeps(site, w, k, Prepare(site, w.dir, i).capsule);
    }
  }

  /** A member stays fit while its publisher and its file stay. */
  lemma OtherMembersStay(site: Site, w: World, x: World, n: FileName)
    requires n in w.dir && MemberFits(site, w, n) && n in x.dir && x.dir[n] == w.dir[n]
    requires w.published <= x.published
    requires forall k :: k in w.publishers && !w.publishers[k].Ready? && n == Temporary(k) ==>
               k in x.publishers && !x.publishers[k].Ready?
    requires forall k | k in w.publishers && w.publishers[k].Linked?
               && w.publishers[k].capsule.packet.body.missionRevision >= 0
               && NameOf(site, w.publishers[k].capsule) == n ::
               k in x.publishers && x.publishers[k] == w.publishers[k]
    ensures MemberFits(site, x, n)
  {
    hide Sound, FileOf, FileNameFor, ShaOf;
    if n.Named? {
      var c :| c in w.published && Publishable(site, c) && NameOf(site, c) == n
               && (w.dir[n] == FileOf(site, c, 1)
                   || (w.dir[n] == FileOf(site, c, 2)
                       && exists k :: k in w.publishers && w.publishers[k] == Linked(c)));
      assert c in x.published;
    }
  }

  lemma MakeTemporaryKeeps(site: Site, w: World, k: nat)
    requires WorldInv(site, w) && CanDo(site, w, MakeTemporary(k))
    ensures WorldInv(site, Do(site, w, MakeTemporary(k)))
  {
    hide Sound, FileOf, FileNameFor, ShaOf;
    var x := Do(site, w, MakeTemporary(k));
    forall n | n in x.dir ensures MemberFits(site, x, n) {
      if n != Temporary(k) { OtherMembersStay(site, w, x, n); }
    }
  }

  lemma AbortKeeps(site: Site, w: World, k: nat)
    requires WorldInv(site, w) && k in w.publishers && w.publishers[k].Written?
    ensures WorldInv(site, w.(dir := w.dir - {Temporary(k)}, publishers := w.publishers - {k}))
  {
    hide Sound, FileOf, ShaOf;
    var x := w.(dir := w.dir - {Temporary(k)}, publishers := w.publishers - {k});
    forall n | n in x.dir ensures MemberFits(site, x, n) { OtherMembersStay(site, w, x, n); }
  }

  lemma LinkKeeps(site: Site, w: World, k: nat)
    requires WorldInv(site, w) && CanDo(site, w, Link(k))
    requires NameOf(site, w.publishers[k].capsule) !in w.dir
    ensures WorldInv(site, Do(site, w, Link(k)))
  {
    hide Publishable, FileOf, NameOf, MembersFit, PublishersFit, LinkersApart, PublishedFit;
    LinkKeepsMembers(site, w, k);
    LinkKeepsPublishers(site, w, k);
  }

  lemma LinkKeepsMembers(site: Site, w: World, k: nat)
    requires WorldInv(site, w) && CanDo(site, w, Link(k))
    requires NameOf(site, w.publishers[k].capsule) !in w.dir
    ensures MembersFit(site, Do(site, w, Link(k)))
  {
    hide Sound, FileOf, ShaOf, LinkersApart, PublishedFit;
    var c := w.publishers[k].capsule;
    var x := Do(site, w, Link(k));
    forall n | n in x.dir ensures MemberFits(site, x, n) {
      if n == NameOf(site, c) {
        assert c in x.published && x.publishers[k] == Linked(c);
      } else if n != Temporary(k) {
        OtherMembersStay(site, w, x, n);
      }
    }
  }

  lemma LinkKeepsPublishers(site: Site, w: World, k: nat)
    requires WorldInv(site, w) && CanDo(site, w, Link(k))
    requires NameOf(site, w.publishers[k].capsule) !in w.dir
    ensures PublishersFit(site, Do(site, w, Link(k))) && LinkersApart(site, Do(site, w, Link(k)))
    ensures PublishedFit(site, Do(site, w, Link(k)))
  {
    hide Sound, FileOf, ShaOf, MembersFit;
  }

  lemma UnlinkKeeps(site: Site, w: World, k: nat)
    requires Lawful(site) && WorldInv(site, w) && CanDo(site, w, Unlink(k))
    ensures WorldInv(site, Do(site, w, Unlink(k)))
  {
    hide Publishable, FileOf, NameOf, MembersFit, PublishersFit, LinkersApart, PublishedFit, Lawful;
    UnlinkKeepsMembers(site, w, k);
    UnlinkKeepsPublishers(site, w, k);
  }

  lemma UnlinkKeepsMembers(site: Site, w: World, k: nat)
    requires WorldInv(site, w) && CanDo(site, w, Unlink(k))
    ensures MembersFit(site, Do(site, w, Unlink(k)))
  {
    hide Sound, ShaOf, WireOf, LinkersApart, PublishedFit;
    var c := w.publishers[k].capsule;
    var x := Do(site, w, Unlink(k));
    forall n | n in x.dir ensures MemberFits(site, x, n) {
      if n == NameOf(site, c) {
        assert c in x.published && x.dir[n] == FileOf(site, c, 1);
      } else {
        OtherMembersStay(site, w, x, n);
      }
    }
  }

  lemma UnlinkKeepsPublishers(site: Site, w: World, k: nat)
    requires Lawful(site) && WorldInv(site, w) && CanDo(site, w, Unlink(k))
    ensures PublishersFit(site, Do(site, w, Unlink(k))) && LinkersApart(site, Do(site, w, Unlink(k)))
    ensures PublishedFit(site, Do(site, w, Unlink(k)))
  {
    hide Sound, ShaOf, WireOf, MembersFit, Lawful;
    var c := w.publishers[k].capsule;
    var x := Do(site, w, Unlink(k));
    forall j | j in x.publishers && x.publishers[j].Linked?
      ensures NameOf(site, x.publishers[j].capsule) in x.dir
      ensures x.dir[NameOf(site, x.publishers[j].capsule)] == FileOf(site, x.publishers[j].capsule, 2)
    {
      if NameOf(site, x.publishers[j].capsule) == NameOf(site, c) {
        NameFixesCapsule(site, x.publishers[j].capsule, c);
      }
    }
  }

  lemma DoKeeps(site: Site, w: World, op: Op)
    requires Lawful(site) && WorldInv(site, w) && CanDo(site, w, op)
    ensures WorldInv(site, Do(site, w, op))
  {
    hide WorldInv, NameOf, FileOf, Lawful, Prepare, InputWellFormed;
    match op
    case Begin(k, i) => BeginKeeps(site, w, k, i);
    case MakeTemporary(k) => MakeTemporaryKeeps(site, w, k);
    case Abort(k) => AbortKeeps(site, w, k);
    case Unlink(k) => UnlinkKeeps(site, w, k);
    case Link(k) =>
      if NameOf(site, w.publishers[k].capsule) in w.dir { AbortKeeps(site, w, k); }
      else { LinkKeeps(site, w, k); }
  }

  lemma {:induction false} ReachableWorlds(site: Site, ops: seq<Op>)
    requires Lawful(site)
    ensures WorldInv(site, After(site, ops))
  {
    hide Do, CanDo, Lawful;
    if |ops| > 0 {
      hide WorldInv;
      ReachableWorlds(site, ops[..|ops| - 1]);
      if CanDo(site, After(site, ops[..|ops| - 1]), ops[|ops| - 1]) {
        DoKeeps(site, After(site, ops[..|ops| - 1]), ops[|ops| - 1]);
      }
    }
  }

  // ---------------------------------------------------------------- what a loader sees

  ghost predicate SomeTemporary(w: World) { exists n :: n in w.dir && n.Temporary? }

  ghost predicate SomeOverLimit(w: World) {
    exists c :: c in w.published && c.packet.body.missionRevision >= REVISION_LIMIT
  }

  /** Two different capsules of one revision were published. */
  ghost predicate SomeRivals(w: World) {
    exists a, b :: a in w.published && b in w.published && a != b
                   && a.packet.body.missionRevision == b.packet.body.missionRevision
  }

  /** Every member of the directory is a settled published capsule. */
  ghost predicate AllSettled(site: Site, w: World) {
    && (forall c :: c in w.published ==>
          Publishable(site, c) && NameOf(site, c) in w.dir && w.dir[NameOf(site, c)] == FileOf(site, c, 1))
    && (forall n :: n in w.dir ==>
          exists c :: c in w.published && Publishable(site, c) && NameOf(site, c) == n)
  }

  lemma QuietIsSettled(site: Site, w: World)
    requires Lawful(site) && WorldInv(site, w) && !SomeTemporary(w)
    ensures AllSettled(site, w)
  {
    hide Sound, FileOf, ShaOf, Lawful, FileNameFor;
    forall n | n in w.dir
      ensures exists c :: c in w.published && Publishable(site, c) && NameOf(site, c) == n
    {
      assert MemberFits(site, w, n);
    }
    forall c | c in w.published ensures w.dir[NameOf(site, c)] == FileOf(site, c, 1) {
      var n := NameOf(site, c);
      IsNamed(site, c);
      assert MemberFits(site, w, n);
      var d :| d in w.published && Publishable(site, d) && NameOf(site, d) == n
               && (w.dir[n] == FileOf(site, d, 1)
                   || (w.dir[n] == FileOf(site, d, 2)
                       && exists k :: k in w.publishers && w.publishers[k] == Linked(d)));
      NameFixesCapsule(site, c, d);
      NoLinkers(site, w);
    }
  }

  lemma IsNamed(site: Site, c: Capsule)
    requires c.packet.body.missionRevision >= 0
    ensures NameOf(site, c).Named?
  {
  }

  lemma NoLinkers(site: Site, w: World)
    requires PublishersFit(site, w) && !SomeTemporary(w)
    ensures forall k :: k in w.publishers ==> w.publishers[k].Ready?
  {
  }

  lemma SettledIdentity(site: Site, w: World, c: Capsule)
    requires AllSettled(site, w) && c in w.published
    ensures Recognised(NameOf(site, c)) <==> c.packet.body.missionRevision < REVISION_LIMIT
    ensures c.packet.body.missionRevision < REVISION_LIMIT ==>
              IdentityOf(NameOf(site, c), w.dir[NameOf(site, c)])
              == Loaded<nat>.Ok(c.packet.body.missionRevision)
    ensures c.packet.body.missionRevision < REVISION_LIMIT ==>
              LoadFile(site, NameOf(site, c), w.dir[NameOf(site, c)]) == Loaded<Capsule>.Ok(c)
  {
    hide Sound, ShaOf, WireOf, LoadWire, REVISION_LIMIT, Decimal, Parse, Pad, AllDigits;
    FileNameRoundTrips(c.packet.body.missionRevision, ShaOf(site.names, c));
    CapsuleRoundTrip(site, c);
  }

  /** What every load of every reachable directory answers. */
  ghost predicate LoadAnswers(site: Site, w: World) {
    var r := Load(site, w.dir);
    if SomeTemporary(w) || SomeOverLimit(w) then r == Refused(MembersInvalid)
    else if w.published == {} then r == Refused(NotFound)
    else if SomeRivals(w) then r == Refused(RevisionConflict)
    else r.Ok? && r.value in w.published
         && forall c :: c in w.published && c != r.value ==>
              c.packet.body.missionRevision < r.value.packet.body.missionRevision
  }

  lemma TemporaryHides(site: Site, w: World)
    requires SomeTemporary(w) || (SomeOverLimit(w) && AllSettled(site, w))
    ensures Load(site, w.dir) == Refused(MembersInvalid)
  {
    hide Sound, FileOf, ShaOf, WireOf, REVISION_LIMIT, Identified, Unambiguous;
    if SomeTemporary(w) {
      var n :| n in w.dir && n.Temporary?;
      assert !Recognised(n);
    } else {
      var c :| c in w.published && c.packet.body.missionRevision >= REVISION_LIMIT;
      SettledIdentity(site, w, c);
    }
  }

  lemma AllIdentified(site: Site, w: World)
    requires AllSettled(site, w) && !SomeOverLimit(w)
    ensures AllRecognised(w.dir) && Identified(w.dir)
    ensures forall c :: c in w.published ==>
              RevisionIn(w.dir, NameOf(site, c)) == c.packet.body.missionRevision
  {
    hide Sound, FileOf, ShaOf, WireOf, REVISION_LIMIT, NameOf, IdentityOf, Recognised;
    forall n | n in w.dir ensures Recognised(n) && IdentityOf(n, w.dir[n]).Ok? {
      var c :| c in w.published && Publishable(site, c) && NameOf(site, c) == n;
      SettledIdentity(site, w, c);
      IdentityMeansRecognised(n, w.dir[n]);
    }
    forall c | c in w.published
      ensures IdentityOf(NameOf(site, c), w.dir[NameOf(site, c)])
              == Loaded<nat>.Ok(c.packet.body.missionRevision)
    {
      SettledIdentity(site, w, c);
    }
  }

  lemma IdentityMeansRecognised(n: FileName, f: File)
    ensures IdentityOf(n, f).Ok? ==> Recognised(n)
  {
  }

  lemma RivalsConflict(site: Site, w: World)
    requires Lawful(site) && AllSettled(site, w) && !SomeOverLimit(w) && Identified(w.dir)
    ensures SomeRivals(w) <==> !Unambiguous(w.dir)
  {
    hide Sound, FileOf, ShaOf, WireOf, REVISION_LIMIT, NameOf, IdentityOf, Recognised, Lawful;
    AllIdentified(site, w);
    if SomeRivals(w) {
      var a, b :| a in w.published && b in w.published && a != b
                  && a.packet.body.missionRevision == b.packet.body.missionRevision;
      if NameOf(site, a) == NameOf(site, b) { NameFixesCapsule(site, a, b); }
    } else {
      forall m, n | m in w.dir && n in w.dir && RevisionIn(w.dir, m) == RevisionIn(w.dir, n)
        ensures m == n
      {
        var a :| a in w.published && Publishable(site, a) && NameOf(site, a) == m;
        var b :| b in w.published && Publishable(site, b) && NameOf(site, b) == n;
      }
    }
  }

  /** `Load` reads a file of greatest revision when nothing stands in its way. */
  lemma LoadPicks(site: Site, d: Directory) returns (n: FileName)
    requires AllRecognised(d) && Identified(d) && Unambiguous(d) && d != map[]
    ensures n in d && Greatest(d, n) && Load(site, d) == LoadFile(site, n, d[n])
  {
    hide IdentityOf, LoadFile, Recognised;
    var g := GreatestExists(d);
    n :| n in d && Greatest(d, n) && Load(site, d) == LoadFile(site, n, d[n]);
  }

  lemma LoadsTheGreatest(site: Site, w: World)
    requires Lawful(site) && AllSettled(site, w) && !SomeOverLimit(w) && !SomeRivals(w)
    requires w.published != {} && !SomeTemporary(w)
    ensures LoadAnswers(site, w)
  {
    hide Sound, FileOf, ShaOf, WireOf, REVISION_LIMIT, NameOf, IdentityOf, Recognised, Lawful,
         LoadFile, SomeOverLimit, SomeRivals, SomeTemporary, Load, AllRecognised, Unambiguous;
    AllIdentified(site, w);
    RivalsConflict(site, w);
    var some :| some in w.published;
    assert NameOf(site, some) in w.dir;
    var n := LoadPicks(site, w.dir);
    var c :| c in w.published && Publishable(site, c) && NameOf(site, c) == n;
    NotOverLimit(w, c);
    SettledIdentity(site, w, c);
    forall d | d in w.published && d != c
      ensures d.packet.body.missionRevision < c.packet.body.missionRevision
    {
      assert RevisionIn(w.dir, NameOf(site, d)) <= RevisionIn(w.dir, n);
      NoRivals(w, c, d);
    }
  }

  lemma NoRivals(w: World, a: Capsule, b: Capsule)
    requires !SomeRivals(w) && a in w.published && b in w.published && a != b
    ensures a.packet.body.missionRevision != b.packet.body.missionRevision
  {
  }

  lemma NotOverLimit(w: World, c: Capsule)
    requires !SomeOverLimit(w) && c in w.published
    ensures c.packet.body.missionRevision < REVISION_LIMIT
  {
  }

  /** However publishers race, crash and abort: a load finds nothing, or meets a temporary file or an
      unreadable name, or reports a conflict, or returns the published capsule of the unique greatest
      revision; it never returns one of two rivals and never fails in any other way. */
  lemma LoadsUnderRaces(site: Site, ops: seq<Op>)
    requires Lawful(site)
    ensures LoadAnswers(site, After(site, ops))
  {
    hide Sound, FileOf, ShaOf, WireOf, REVISION_LIMIT, NameOf, IdentityOf, Recognised, Lawful,
         LoadFile, SomeOverLimit, SomeTemporary, SomeRivals, AllSettled, WorldInv, Identified,
         Unambiguous, After;
    ReachableWorlds(site, ops);
    var w := After(site, ops);
    if SomeTemporary(w) {
      TemporaryHides(site, w);
    } else {
      QuietIsSettled(site, w);
      if SomeOverLimit(w) {
        TemporaryHides(site, w);
      } else {
        AllIdentified(site, w);
        RivalsConflict(site, w);
        if w.published == {} {
          NothingPublished(site, w);
        } else if !SomeRivals(w) {
          LoadsTheGreatest(site, w);
        } else {
          SomethingPublished(site, w);
        }
      }
    }
  }

  lemma NothingPublished(site: Site, w: World)
    requires AllSettled(site, w) && w.published == {}
    ensures w.dir == map[]
  {
  }

  lemma SomethingPublished(site: Site, w: World)
    requires AllSettled(site, w) && SomeRivals(w)
    ensures w.dir != map[] && w.published != {}
  {
    hide Sound, FileOf, NameOf;
    var a, b :| a in w.published && b in w.published && a != b
                && a.packet.body.missionRevision == b.packet.body.missionRevision;
    assert NameOf(site, a) in w.dir;
  }

  /** Publication is final: no operation removes or changes a settled capsule, so a loader that lists
      the directory at one moment and reads the file at another reads what it listed. */
  lemma SettledFilesStay(site: Site, w: World, op: Op, n: FileName)
    requires Lawful(site) && WorldInv(site, w) && CanDo(site, w, op)
    requires n.Named? && n in w.dir && w.dir[n].links == 1
    ensures n in Do(site, w, op).dir && Do(site, w, op).dir[n] == w.dir[n]
    ensures w.published <= Do(site, w, op).published
  {
    hide Sound, ShaOf, Lawful, Prepare, WireOf, MembersFit, PublishedFit;
    if op.Unlink? {
      var c := w.publishers[op.k].capsule;
      assert w.dir[NameOf(site, c)] == FileOf(site, c, 2);
    }
  }

  lemma {:induction false} ListedFilesStay(site: Site, ops: seq<Op>, early: nat, n: FileName)
    requires Lawful(site) && early <= |ops|
    requires n.Named? && n in After(site, ops[..early]).dir && After(site, ops[..early]).dir[n].links == 1
    ensures n in After(site, ops).dir && After(site, ops).dir[n] == After(site, ops[..early]).dir[n]
    ensures After(site, ops[..early]).published <= After(site, ops).published
    decreases |ops|
  {
    hide Do, CanDo, WorldInv, Lawful;
    if early == |ops| {
      assert ops[..early] == ops;
    } else {
      var front := ops[..|ops| - 1];
      assert front[..early] == ops[..early];
      ListedFilesStay(site, front, early, n);
      ReachableWorlds(site, front);
      if CanDo(site, After(site, front), ops[|ops| - 1]) {
        SettledFilesStay(site, After(site, front), ops[|ops| - 1], n);
      }
    }
  }

  /** Rivals conflict for ever. */
  lemma RivalsNeverLoad(site: Site, ops: seq<Op>, early: nat)
    requires Lawful(site) && early <= |ops| && SomeRivals(After(site, ops[..early]))
    ensures !Load(site, After(site, ops).dir).Ok?
  {
    hide After, Load, Lawful, SomeTemporary, SomeOverLimit;
    PublishedStay(site, ops, early);
    LoadsUnderRaces(site, ops);
    var a, b :| a in After(site, ops[..early]).published && b in After(site, ops[..early]).published
                && a != b && a.packet.body.missionRevision == b.packet.body.missionRevision;
    assert a in After(site, ops).published && b in After(site, ops).published;
  }

  lemma {:induction false} PublishedStay(site: Site, ops: seq<Op>, early: nat)
    requires early <= |ops|
    ensures After(site, ops[..early]).published <= After(site, ops).published
    decreases |ops|
  {
    hide CanDo, Prepare, NameOf, FileOf;
    if early == |ops| {
      assert ops[..early] == ops;
    } else {
      var front := ops[..|ops| - 1];
      assert front[..early] == ops[..early];
      PublishedStay(site, front, early);
    }
  }
}
