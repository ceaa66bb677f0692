/** Publications one after another, and the directory object that carries them out. */
module CapsuleSequence {
  import opened Records
  import opened PacketCodec
  import opened CapsuleFiles
  import opened Capsules
  import opened CapsuleRaces

  // ---------------------------------------------------------------- one publisher at a time

  /** What a publication with nobody else at work leaves behind. */
  ghost function Publish(site: Site, w: World, i: Input): World {
    match Prepare(site, w.dir, i)
    case Fresh(c) =>
      if c.packet.body.missionRevision < 0 then w
      else w.(dir := w.dir[NameOf(site, c) := FileOf(site, c, 1)], published := w.published + {c})
    case _ => w
  }

  ghost function PublishAll(site: Site, inputs: seq<Input>): World {
    if |inputs| == 0 then NOTHING
    else Publish(site, PublishAll(site, inputs[..|inputs| - 1]), inputs[|inputs| - 1])
  }

  ghost predicate AllInputsWellFormed(inputs: seq<Input>) {
    forall i :: 0 <= i < |inputs| ==> InputWellFormed(inputs[i])
  }

  /** A name that may be written is not in the directory yet. */
  lemma FreshNameIsNew(site: Site, d: Directory, i: Input)
    requires Lawful(site) && InputWellFormed(i) && Prepare(site, d, i).Fresh?
    ensures var c := Prepare(site, d, i).capsule;
      c.packet.body.missionRevision >= 0 && NameOf(site, c) !in d
  {
    FreshIsSound(site, d, i);
    hide Prepare, Sound, ShaOf, Lawful, InputWellFormed, REVISION_LIMIT, Decimal, Pad;
    var c := Prepare(site, d, i).capsule;
    FileNameRoundTrips(c.packet.body.missionRevision, ShaOf(site.names, c));
  }

  function Steps(i: Input): seq<Op> { [Begin(0, i), MakeTemporary(0), Link(0), Unlink(0)] }

  /** The four file operations of a lone publisher do what `Publish` says. */
  lemma LonePublisher(site: Site, ops: seq<Op>, i: Input)
    requires Lawful(site) && InputWellFormed(i) && After(site, ops).publishers == map[]
    requires Temporary(0) !in After(site, ops).dir && Prepare(site, After(site, ops).dir, i).Fresh?
    ensures After(site, ops + Steps(i)) == Publish(site, After(site, ops), i)
    ensures Publish(site, After(site, ops), i).publishers == map[]
  {
    hide Prepare, Lawful, InputWellFormed, ShaOf, FileOf, FileNameFor;
    var w := After(site, ops);
    var c := Prepare(site, w.dir, i).capsule;
    FreshNameIsNew(site, w.dir, i);
    AfterOne(site, ops, Begin(0, i));
    var a := After(site, ops + [Begin(0, i)]);
    AfterOne(site, ops + [Begin(0, i)], MakeTemporary(0));
    var b := After(site, ops + [Begin(0, i)] + [MakeTemporary(0)]);
    assert NameOf(site, c).Named? by { IsNamed(site, c); }
    AfterOne(site, ops + [Begin(0, i)] + [MakeTemporary(0)], Link(0));
    AfterOne(site, ops + [Begin(0, i)] + [MakeTemporary(0)] + [Link(0)], Unlink(0));
    assert ops + [Begin(0, i)] + [MakeTemporary(0)] + [Link(0)] + [Unlink(0)] == ops + Steps(i);
    var d := After(site, ops + Steps(i));
    assert d.dir == w.dir[NameOf(site, c) := FileOf(site, c, 1)];
    assert d.publishers == map[];
  }

  lemma AfterOne(site: Site, ops: seq<Op>, op: Op)
    ensures After(site, ops + [op]) ==
            if CanDo(site, After(site, ops), op) then Do(site, After(site, ops), op) else After(site, ops)
  {
    hide CanDo, Do;
    assert (ops + [op])[..|ops|] == ops;
  }

  /** Publishing in sequence is one of the ways publishers can interleave. */
  lemma {:induction false} SequencesAreRaces(site: Site, inputs: seq<Input>) returns (ops: seq<Op>)
    requires Lawful(site) && AllInputsWellFormed(inputs)
    ensures After(site, ops) == PublishAll(site, inputs)
    ensures PublishAll(site, inputs).publishers == map[]
    ensures forall n :: n in PublishAll(site, inputs).dir ==> n.Named?
  {
    hide Lawful, InputWellFormed, Prepare, FileOf, ShaOf, After, FileNameFor;
    if |inputs| == 0 {
      ops := [];
      assert After(site, ops) == NOTHING by { AfterNothing(site); }
    } else {
      var front, last := inputs[..|inputs| - 1], inputs[|inputs| - 1];
      ops := SequencesAreRaces(site, front);
      if Prepare(site, PublishAll(site, front).dir, last).Fresh? {
        LonePublisher(site, ops, last);
        ops := ops + Steps(last);
        FreshNameIsNew(site, PublishAll(site, front).dir, last);
        IsNamed(site, Prepare(site, PublishAll(site, front).dir, last).capsule);
      }
    }
  }

  lemma AfterNothing(site: Site)
    ensures After(site, []) == NOTHING
  {
  }

  /** Each published revision is greater than all before it. */
  lemma {:induction false} SequencesHaveNoRivals(site: Site, inputs: seq<Input>)
    requires Lawful(site) && AllInputsWellFormed(inputs)
    ensures !SomeRivals(PublishAll(site, inputs))
  {
    hide Lawful, InputWellFormed, ShaOf, FileOf, NameOf;
    if |inputs| > 0 {
      var front, last := inputs[..|inputs| - 1], inputs[|inputs| - 1];
      SequencesHaveNoRivals(site, front);
      var w := PublishAll(site, front);
      if Prepare(site, w.dir, last).Fresh? { FreshIsGreatest(site, front, last); }
    }
  }

  lemma FreshIsGreatest(site: Site, inputs: seq<Input>, i: Input)
    requires Lawful(site) && AllInputsWellFormed(inputs) && InputWellFormed(i)
    requires Prepare(site, PublishAll(site, inputs).dir, i).Fresh?
    ensures var w := PublishAll(site, inputs);
      forall c :: c in w.published ==>
        c.packet.body.missionRevision < Prepare(site, w.dir, i).capsule.packet.body.missionRevision
  {
    hide Lawful, InputWellFormed, ShaOf, FileOf, REVISION_LIMIT, Sound, WorldInv, IdentityOf,
         Recognised, PublishAll, NameOf;
    var w := PublishAll(site, inputs);
    FreshIsSound(site, w.dir, i);
    hide Prepare;
    var ops := SequencesAreRaces(site, inputs);
    ReachableWorlds(site, ops);
    QuietIsSettled(site, w);
    NothingOverLimit(site, w);
    AllIdentified(site, w);
    forall c | c in w.published
      ensures c.packet.body.missionRevision < Prepare(site, w.dir, i).capsule.packet.body.missionRevision
    {
      assert RevisionIn(w.dir, NameOf(site, c)) == c.packet.body.missionRevision;
    }
  }

  lemma NothingOverLimit(site: Site, w: World)
    requires AllSettled(site, w) && AllRecognised(w.dir)
    ensures !SomeOverLimit(w)
  {
    hide Sound, FileOf, ShaOf, REVISION_LIMIT, NameOf, Recognised;
    forall c | c in w.published ensures c.packet.body.missionRevision < REVISION_LIMIT {
      SettledIdentity(site, w, c);
    }
  }

  ghost predicate HoldsExactly(site: Site, w: World) {
    && AllSettled(site, w)
    && (!SomeOverLimit(w) ==> AllRecognised(w.dir) && Identified(w.dir) && Unambiguous(w.dir))
  }

  /** The directory holds the file of every published capsule and nothing else, one per revision. */
  lemma SequencesLeaveOneFileEach(site: Site, inputs: seq<Input>)
    requires Lawful(site) && AllInputsWellFormed(inputs)
    ensures HoldsExactly(site, PublishAll(site, inputs))
  {
    hide Lawful, InputWellFormed, After, PublishAll, SomeOverLimit, WorldInv, SomeRivals, AllSettled,
         Unambiguous;
    var w := PublishAll(site, inputs);
    var ops := SequencesAreRaces(site, inputs);
    ReachableWorlds(site, ops);
    QuietIsSettled(site, w);
    SequencesHaveNoRivals(site, inputs);
    if !SomeOverLimit(w) {
      AllIdentified(site, w);
      RivalsConflict(site, w);
    }
  }

  /** After any sequence of publications: a load returns the published capsule of the greatest
      revision, and exactly a revision of more than twenty digits spoils it. */
  lemma SequencesLoadTheGreatest(site: Site, inputs: seq<Input>)
    requires Lawful(site) && AllInputsWellFormed(inputs)
    ensures var w := PublishAll(site, inputs);
            var r := Load(site, w.dir);
      && (forall a, b | a in w.published && b in w.published
            && a.packet.body.missionRevision == b.packet.body.missionRevision :: a == b)
      && (SomeOverLimit(w) ==> r == Refused(MembersInvalid))
      && (!SomeOverLimit(w) && w.published == {} ==> r == Refused(NotFound))
      && (!SomeOverLimit(w) && w.published != {} ==>
            r.Ok? && r.value in w.published
            && forall c :: c in w.published && c != r.value ==>
                 c.packet.body.missionRevision < r.value.packet.body.missionRevision)
  {
    hide Lawful, InputWellFormed, Load, After, PublishAll, SomeOverLimit;
    var ops := SequencesAreRaces(site, inputs);
    LoadsUnderRaces(site, ops);
    SequencesHaveNoRivals(site, inputs);
  }

  /** Publishing an input again changes nothing and names its file, whatever the context files say by
      then; a different input of the same revision is refused. */
  lemma RepublishingIsANoOp(site: Site, inputs: seq<Input>, i: Input, c: Capsule)
    requires Lawful(site) && AllInputsWellFormed(inputs) && InputWellFormed(i)
    requires !SomeOverLimit(PublishAll(site, inputs))
    requires c in PublishAll(site, inputs).published && SameRevision(c, i)
    requires PublishableInput(site, i)
    ensures c.packet.body.missionRevision >= 0
    ensures Prepare(site, PublishAll(site, inputs).dir, i) ==
            if SameInput(c, i) then Existing(NameOf(site, c)) else Declined(RevisionConflict)
    ensures Publish(site, PublishAll(site, inputs), i) == PublishAll(site, inputs)
  {
    hide Lawful, InputWellFormed, ShaOf, FileOf, REVISION_LIMIT, Sound, WorldInv, IdentityOf,
         Recognised, PublishAll, NameOf, SomeOverLimit, LoadFile, SomeRivals, PublishableInput,
         Prepare, SameInput;
    var w := PublishAll(site, inputs);
    var ops := SequencesAreRaces(site, inputs);
    ReachableWorlds(site, ops);
    QuietIsSettled(site, w);
    SequencesHaveNoRivals(site, inputs);
    AllIdentified(site, w);
    RivalsConflict(site, w);
    NotOverLimit(w, c);
    SettledIdentity(site, w, c);
    OccupiedRevision(site, w.dir, i, NameOf(site, c), c);
  }

  predicate SameRevision(c: Capsule, i: Input) {
    c.packet.body.missionRevision == i.packet.body.missionRevision
  }

  /** The input passes the checks made before the directory is looked at. */
  ghost predicate PublishableInput(site: Site, i: Input) {
    && NonBlank(i.mission) && NonBlank(i.route)
    && DecodePacket(site.names, EncodePacket(site.names, i.packet)).Ok?
    && (i.profile.Some? ==> DecodeProfile(site.names, EncodeProfile(site.names, i.profile.value)).Ok?)
  }

  lemma OccupiedRevision(site: Site, d: Directory, i: Input, n: FileName, c: Capsule)
    requires AllRecognised(d) && Identified(d) && Unambiguous(d) && n in d
    requires RevisionIn(d, n) == i.packet.body.missionRevision
    requires LoadFile(site, n, d[n]) == Loaded<Capsule>.Ok(c) && PublishableInput(site, i)
    ensures Prepare(site, d, i) == if SameInput(c, i) then Existing(n) else Declined(RevisionConflict)
  {
    hide IdentityOf, LoadFile, NonBlank, EncodePacket, DecodePacket, EncodeProfile, DecodeProfile;
  }
}
