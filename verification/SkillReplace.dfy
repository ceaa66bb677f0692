/** Replacing an installed skill: stage, two renames, verify, and roll back, where any file operation
    may fail. */
module SkillReplace {
  import opened Records

  type Bytes = seq<bv8>

  /** What a path holds.  A plain directory is known by its files and by whether a symbolic link is
      among its entries; empty directories do not count. */
  datatype Node = Missing | NotPlain | Tree(files: map<string, Bytes>, linked: bool)

  datatype Place = Target | Staging | Backup

  datatype Disk = Disk(target: Node, staging: Node, backup: Node) {
    function At(p: Place): Node {
      match p
      case Target => target
      case Staging => staging
      case Backup => backup
    }

    function Put(p: Place, n: Node): (d: Disk)
      ensures d.At(p) == n && forall q :: q != p ==> d.At(q) == At(q)
    {
      match p
      case Target => this.(target := n)
      case Staging => this.(staging := n)
      case Backup => this.(backup := n)
    }
  }

  /** `previous` are the digests of the members replaced. */
  datatype Exit = Updated(previous: map<string, Digest<Bytes>>) | PreimageDrift | Raised

  /** A complete copy of the old or of the new skill is where an operator finds it. */
  ghost predicate Recoverable(old_: Node, new_: Node, d: Disk) {
    d.target == old_ || d.backup == old_ || d.target == new_
  }

  class SkillParent {
    const payloads: map<string, Bytes>
    /** Whether the n-th file operation fails. */
    const fails: nat -> bool
    /** What a failed removal leaves of a tree. */
    const residue: nat -> set<string>
    /** What reaches the disk when a file is written. */
    const lands: (nat, Bytes) -> Bytes

    var clock: nat
    var disk: Disk
    /** Every state the disk has been in, oldest first. */
    ghost var trail: seq<Disk>
    /** A rename of the rollback failed. */
    ghost var rollbackFailed: bool
    /** A removal of staged files failed. */
    ghost var uncleared: bool

    ghost predicate Valid()
      reads this
    {
      |trail| > 0 && trail[|trail| - 1] == disk
    }

    ghost predicate AllRecoverable(old_: Node, since: nat)
      reads this
    {
      forall i :: since <= i < |trail| ==> Recoverable(old_, Tree(payloads, false), trail[i])
    }

    constructor (payloads: map<string, Bytes>, target: Node, fails: nat -> bool,
                 residue: nat -> set<string>, lands: (nat, Bytes) -> Bytes)
      ensures Valid() && this.payloads == payloads && disk == Disk(target, Missing, Missing)
      ensures this.fails == fails && this.lands == lands && this.residue == residue
      ensures clock == 0 && !rollbackFailed && !uncleared
    {
      this.payloads, this.fails, this.residue, this.lands := payloads, fails, residue, lands;
      clock, disk, trail, rollbackFailed := 0, Disk(target, Missing, Missing),
                                            [Disk(target, Missing, Missing)], false;
      uncleared := false;
    }

    method Attempt() returns (ok: bool)
      modifies this`clock
      ensures ok <==> !fails(old(clock))
      ensures clock == old(clock) + 1
    {
      ok := !fails(clock);
      clock := clock + 1;
    }

    method Put(p: Place, n: Node)
      requires Valid()
      modifies this`disk, this`trail
      ensures Valid() && disk == old(disk).Put(p, n) && trail == old(trail) + [disk]
    {
      disk := disk.Put(p, n);
      trail := trail + [disk];
    }

    /** `os.rename` onto a free path: all or nothing. */
    method Rename(from: Place, to: Place) returns (ok: bool)
      requires Valid() && from != to && disk.At(to) == Missing
      modifies this`clock, this`disk, this`trail
      ensures Valid() && clock == old(clock) + 1 && (ok <==> !fails(old(clock)))
      ensures disk == if ok then old(disk).Put(to, old(disk).At(from)).Put(from, Missing) else old(disk)
      ensures trail == if ok then old(trail) + [disk] else old(trail)
    {
      ok := Attempt();
      if ok {
        disk := disk.Put(to, disk.At(from)).Put(from, Missing);
        trail := trail + [disk];
      }
    }

    /** `shutil.rmtree`: a failure leaves some of the files. */
    method Remove(p: Place) returns (ok: bool)
      requires Valid()
      modifies this`clock, this`disk, this`trail
      ensures Valid() && clock == old(clock) + 1 && (ok <==> !fails(old(clock)))
      ensures disk == old(disk).Put(p, disk.At(p))
      ensures ok ==> disk.At(p) == Missing
      ensures trail == old(trail) + [disk]
    {
      ok := Attempt();
      if ok {
        Put(p, Missing);
      } else if disk.At(p).Tree? {
        var t := disk.At(p);
        Put(p, Tree(map k | k in t.files && k in residue(clock) :: t.files[k], t.linked));
      } else {
        Put(p, disk.At(p));
      }
    }

    /** Only the staging path has changed since the trail had length `since`. */
    ghost predicate OnlyStaged(d: Disk, since: nat)
      reads this
    {
      && disk.target == d.target && disk.backup == d.backup
      && forall i :: since <= i < |trail| ==> trail[i].target == d.target && trail[i].backup == d.backup
    }

    ghost predicate NoFaults() { forall n :: !fails(n) }

    /** The files are written as they should be. */
    ghost predicate Faithful() { forall n, b :: lands(n, b) == b }

    /** `_stage_native_tura_skill`: one file after another; on a failure the staged tree is removed,
        as far as that works. */
    method Stage() returns (ok: bool)
      requires Valid() && disk.staging == Missing && !uncleared
      modifies this`clock, this`disk, this`trail, this`uncleared
      ensures !ok && !uncleared ==> disk.staging == Missing
      ensures ok ==> !uncleared
      ensures Valid() && |trail| >= |old(trail)| && trail[..|old(trail)|] == old(trail)
      ensures OnlyStaged(old(disk), |old(trail)|)
      ensures ok ==> disk.staging.Tree? && !disk.staging.linked
      ensures NoFaults() ==> ok
      ensures ok && Faithful() ==> disk.staging == Tree(payloads, false)
    {
      hide Faithful;
      ok := Attempt();
      if !ok { return; }
      Put(Staging, Tree(map[], false));
      ok := WriteAll();
      if !ok {
        var removed := Remove(Staging);
        uncleared := !removed;
      } else {
        assert Faithful() ==> disk.staging.files == payloads;
      }
    }

    /** Every member, until one fails. */
    method WriteAll() returns (ok: bool)
      requires Valid() && disk.staging == Tree(map[], false) && Written({})
      modifies this`clock, this`disk, this`trail
      ensures Valid() && |trail| >= |old(trail)| && trail[..|old(trail)|] == old(trail)
      ensures disk.target == old(disk).target && disk.backup == old(disk).backup
      ensures disk.staging.Tree? && !disk.staging.linked
      ensures forall i :: |old(trail)| <= i < |trail| ==>
                trail[i].target == old(disk).target && trail[i].backup == old(disk).backup
      ensures ok ==> Written(payloads.Keys)
      ensures NoFaults() ==> ok
    {
      hide Faithful, NoFaults, Written;
      var pending := payloads.Keys;
      ghost var done := {};
      ok := true;
      while pending != {} && ok
        invariant Valid() && pending !! done && pending + done == payloads.Keys
        invariant |trail| >= |old(trail)| && trail[..|old(trail)|] == old(trail)
        invariant disk.target == old(disk).target && disk.backup == old(disk).backup
        invariant disk.staging.Tree? && !disk.staging.linked
        invariant forall i :: |old(trail)| <= i < |trail| ==>
          trail[i].target == old(disk).target && trail[i].backup == old(disk).backup
        invariant ok ==> Written(done)
        invariant NoFaults() ==> ok
        decreases |pending|, ok
      {
        var k :| k in pending;
        ok := WriteFile(k, done);
        pending, done := pending - {k}, done + {k};
      }
      if ok { assert done == payloads.Keys; }
    }

    /** The files staged so far; faithful writes have put the right bytes there. */
    ghost predicate Written(done: set<string>)
      reads this
    {
      && disk.staging.Tree? && disk.staging.files.Keys == done && done <= payloads.Keys
      && (Faithful() ==> forall k :: k in done ==> disk.staging.files[k] == payloads[k])
    }

    /** One member: its bytes as they land. */
    method WriteFile(k: string, ghost done: set<string>) returns (ok: bool)
      requires Valid() && k in payloads && Written(done) && !disk.staging.linked
      modifies this`clock, this`disk, this`trail
      ensures Valid() && (ok <==> !fails(old(clock))) && (NoFaults() ==> ok)
      ensures !ok ==> disk == old(disk) && trail == old(trail)
      ensures ok ==> trail == old(trail) + [disk] && Written(done + {k})
      ensures disk.target == old(disk).target && disk.backup == old(disk).backup
      ensures disk.staging.Tree? && !disk.staging.linked
    {
      var landed := lands(clock, payloads[k]);
      ok := Attempt();
      if ok { Put(Staging, Tree(disk.staging.files[k := landed], false)); }
    }

    /** `_verify_native_tura_skill_target`: exactly the payloads, byte for byte, and no link. */
    method Verify() returns (ok: bool)
      modifies this`clock
      ensures ok ==> disk.target == Tree(payloads, false)
      ensures disk.target == Tree(payloads, false) && NoFaults() ==> ok
    {
      var readable := Attempt();
      if !readable || !disk.target.Tree? || disk.target.linked { return false; }
      if disk.target.files.Keys != payloads.Keys { return false; }
      var pending := payloads.Keys;
      ok := true;
      while pending != {}
        invariant pending <= payloads.Keys
        invariant ok ==> forall k :: k in payloads && k !in pending ==>
          disk.target.files[k] == payloads[k]
        invariant !ok ==> disk.target != Tree(payloads, false) || exists n :: fails(n)
        decreases |pending|
      {
        var k :| k in pending;
        var read := Attempt();
        if !read || disk.target.files[k] != payloads[k] { ok := false; }
        pending := pending - {k};
      }
      assert ok ==> disk.target.files == payloads;
    }

    /** `_replace_native_tura_skill_target`.  Whatever fails and wherever the program is interrupted, the
        old or the new skill is complete at the target or the old one at the backup path; every exit
        whose rollback renames worked leaves the target exactly old or exactly the verified new one;
        a normal return has replaced it; and without any failure it does return. */
    method Replace() returns (exit: Exit)
      requires Valid() && disk.staging == Missing && disk.backup == Missing && !rollbackFailed
      requires !uncleared
      modifies this
      ensures !uncleared && disk.staging != Missing ==>
                exit.Raised? && disk.target == old(disk).target
      ensures Valid() && |trail| >= |old(trail)| && trail[..|old(trail)|] == old(trail)
      ensures AllRecoverable(old(disk).target, |old(trail)|)
      ensures Recoverable(old(disk).target, Tree(payloads, false), disk)
      ensures !rollbackFailed ==>
                disk.target == old(disk).target || disk.target == Tree(payloads, false)
      ensures rollbackFailed ==> exit.Raised? && disk.backup == old(disk).target
      ensures exit.Updated? ==>
                && disk == Disk(Tree(payloads, false), Missing, Missing)
                && old(disk).target.Tree?
                && exit.previous == map k | k in old(disk).target.files :: Of(old(disk).target.files[k])
      ensures exit.PreimageDrift? <==> !old(disk).target.Tree? || old(disk).target.linked
      ensures exit.PreimageDrift? ==> disk == old(disk)
      ensures (old(disk).target.Tree? && !old(disk).target.linked && NoFaults()
               && Faithful()) ==> exit.Updated?
    {
      ghost var before := disk.target;
      if !disk.target.Tree? || disk.target.linked { return PreimageDrift; }
      var ok := Attempt();
      if !ok { return Raised; }
      var previous := map k | k in disk.target.files :: Of(disk.target.files[k]);
      ok := Stage();
      if !ok { return Raised; }
      ok := Attempt();
      if !ok { return Raised; }
      Put(Backup, Tree(map[], false));
      ok := Attempt();
      if !ok { return Raised; }
      Put(Backup, Missing);
      exit := Exchange(previous);
    }

    /** The guarded part: both renames, the verification, the rollback, and the clean-up that runs
        however it ends. */
    method Exchange(previous: map<string, Digest<Bytes>>) returns (exit: Exit)
      requires Valid() && disk.backup == Missing && disk.staging.Tree? && !rollbackFailed
      requires disk.target.Tree? && !uncleared
      modifies this
      ensures !uncleared ==> disk.staging == Missing
      ensures Valid() && |trail| >= |old(trail)| && trail[..|old(trail)|] == old(trail)
      ensures AllRecoverable(old(disk).target, |old(trail)|)
      ensures Recoverable(old(disk).target, Tree(payloads, false), disk)
      ensures !rollbackFailed ==>
                disk.target == old(disk).target || disk.target == Tree(payloads, false)
      ensures rollbackFailed ==> exit.Raised? && disk.backup == old(disk).target
      ensures exit.Updated? ==>
                disk == Disk(Tree(payloads, false), Missing, Missing) && exit.previous == previous
      ensures !exit.PreimageDrift?
      ensures old(disk).staging == Tree(payloads, false) && NoFaults() ==> exit.Updated?
    {
      ghost var before := disk.target;
      var replaced := false;
      var moved := Rename(Target, Backup);
      if moved { replaced := Install(before); }
      if disk.staging != Missing {
        var cleared := Remove(Staging);
        uncleared := !cleared;
      }
      if !replaced { return Raised; }
      var removed := Remove(Backup);
      if !removed { return Raised; }
      var synced := Attempt();
      if !synced { return Raised; }
      exit := Updated(previous);
    }

    /** With the old tree moved away: move the staged one in and verify it, or roll back. */
    method Install(ghost before: Node) returns (replaced: bool)
      requires Valid() && disk.backup == before && before.Tree? && disk.target == Missing
      requires disk.staging.Tree? && !rollbackFailed
      modifies this`clock, this`disk, this`trail, this`rollbackFailed
      ensures Valid() && |trail| >= |old(trail)| && trail[..|old(trail)|] == old(trail)
      ensures AllRecoverable(before, |old(trail)|)
      ensures replaced ==> disk == Disk(Tree(payloads, false), Missing, before) && !rollbackFailed
      ensures !replaced && rollbackFailed ==> disk.backup == before
      ensures !replaced && !rollbackFailed ==> disk.target == before && disk.backup == Missing
      ensures old(disk).staging == Tree(payloads, false) && NoFaults() ==> replaced
    {
      var installed := Rename(Staging, Target);
      assert AllRecoverable(before, |old(trail)|);
      var synced := false;
      if installed { synced := Attempt(); }
      replaced := false;
      if synced { replaced := Verify(); }
      if !replaced {
        label rollback:
        RollBack(before);
        assert trail[..|old(trail)|] == old@rollback(trail)[..|old(trail)|];
        assert forall i :: |old(trail)| <= i < |old@rollback(trail)| ==> trail[i] == old@rollback(trail)[i];
      }
    }

    /** The handler: move what was installed back to the staging path, then the backup to the target;
        the first rename that fails ends it. */
    method RollBack(ghost before: Node)
      requires Valid() && disk.backup == before && before.Tree? && !rollbackFailed
      requires disk.staging == Missing || disk.target == Missing
      modifies this`clock, this`disk, this`trail, this`rollbackFailed
      ensures Valid() && |trail| >= |old(trail)| && trail[..|old(trail)|] == old(trail)
      ensures AllRecoverable(before, |old(trail)|)
      ensures rollbackFailed ==> disk.backup == before
      ensures !rollbackFailed ==> disk.target == before && disk.backup == Missing
    {
      if disk.target != Missing {
        var returned := Rename(Target, Staging);
        if !returned { rollbackFailed := true; return; }
      }
      var restored := Rename(Backup, Target);
      if !restored { rollbackFailed := true; return; }
      var synced := Attempt();
    }
  }
}
