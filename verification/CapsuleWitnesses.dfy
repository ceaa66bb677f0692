/** A publication that makes its own directory unreadable. */
module CapsuleWitnesses {
  import opened Records
  import opened StoreSpec
  import opened PacketCodec
  import opened CapsuleFiles
  import opened Capsules
  import opened CapsuleRaces
  import opened CapsuleSequence
  import opened Witnesses

  const FAR_REVISION: TaskPacket := Seal(PACKET.body.(missionRevision := REVISION_LIMIT))
  const FAR_INPUT: Input := Input("mission", "route", FAR_REVISION, None)

  lemma FarIsDecodable()
    ensures Decodable(FAR_REVISION) && NonBlank("mission") && NonBlank("route")
  {
    hide REVISION_LIMIT;
    LettersAreText('m');
    LettersAreText('k');
    LettersAreText('r');
    LettersAreText('x');
    LettersAreText('a');
    LettersAreText('c');
    LettersAreText('t');
    assert "mode"[0] == 'm' && "delta"[0] == 'd' && "unless"[0] == 'u';
    assert "mission"[0] == 'm' && "route"[0] == 'r';
  }

  lemma FarIsFresh(site: Site)
    ensures Prepare(site, map[], FAR_INPUT)
            == Fresh(Capsule(site.task, "mission", "route", FAR_REVISION, None, None))
  {
    hide EncodePacket, DecodePacket, Decodable, NonBlank, REVISION_LIMIT, IdentityOf;
    FarIsDecodable();
    DecodesPacketIff(site.names, EncodePacket(site.names, FAR_REVISION), FAR_REVISION);
  }

  lemma FarIsNatural()
    ensures FAR_REVISION.body.missionRevision >= REVISION_LIMIT > 0
  {
  }

  /** One accepted publication of a revision of twenty-one digits: the task's directory cannot be
      loaded any more. */
  lemma UnreadableDirectoryHappens(site: Site)
    requires Lawful(site)
    ensures AllInputsWellFormed([FAR_INPUT])
    ensures Publish(site, NOTHING, FAR_INPUT) != NOTHING
    ensures Load(site, PublishAll(site, [FAR_INPUT]).dir) == Refused(MembersInvalid)
  {
    hide Load, Prepare, NameOf, FileOf, REVISION_LIMIT, Lawful;
    FarIsFresh(site);
    FarIsNatural();
    var w := PublishAll(site, [FAR_INPUT]);
    assert w == Publish(site, NOTHING, FAR_INPUT) by {
      assert [FAR_INPUT][..|[FAR_INPUT]| - 1] == [];
      assert PublishAll(site, []) == NOTHING;
    }
    assert Capsule(site.task, "mission", "route", FAR_REVISION, None, None) in w.published;
    SequencesLoadTheGreatest(site, [FAR_INPUT]);
  }
}
