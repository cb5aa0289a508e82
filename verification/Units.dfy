/**
 * The user's service definition and service as the autostart code sees them: one canonical
 * definition file, two recovery slots, the enabled and active bits and a detached daemon.
 * Every operation may fail. A failing `systemctl` may have had its effect or not; a query
 * that answers, answers truthfully (agent_collab/daemon_autostart_systemd.py,
 * agent_collab/daemon_autostart_launchd.py).
 */
module Units {
  import opened Common

  /** Whose definition a file is: this home's, or another one, named by its home and command. */
  datatype Owner = Current | Other(key: string)

  /** A file; `trusted` if it is a private regular file of this user that reads as a definition. */
  datatype Entry = Entry(content: string, inode: nat, owner: Owner, trusted: bool)

  /** What a snapshot of the recovery slots permits to be replaced. */
  predicate Authorised(slot: Option<Entry>, permitted: Option<string>) {
    slot.None? || (slot.value.trusted && permitted == Some(slot.value.content))
  }

  /** Occupied slots that the snapshot does not permit are the same as before. */
  predicate OthersKept(before: seq<Option<Entry>>, after: seq<Option<Entry>>, permitted: seq<Option<string>>)
    requires |before| == |permitted|
  {
    |after| == |before| && forall i :: 0 <= i < |before| && !Authorised(before[i], permitted[i]) ==> after[i] == before[i]
  }

  /** No slot of another home is ever permitted to be replaced, except in a takeover of just that home's definition. */
  lemma SnapshotSparesOthers(slots: seq<Option<Entry>>, takeover: bool, target: Option<Owner>, i: nat)
    requires i < |slots| && slots[i].Some? && slots[i].value.owner.Other?
    requires !takeover || target != Some(slots[i].value.owner)
    ensures !Authorised(slots[i], AuthorizedSnapshot(slots, takeover, target)[i])
    ensures forall after :: |after| == |slots| && OthersKept(slots, after, AuthorizedSnapshot(slots, takeover, target)) ==> after[i] == slots[i]
  {}

  /** The slots a caller may later replace: this home's own and, in a takeover, those of the definition taken over. */
  function AuthorizedSnapshot(slots: seq<Option<Entry>>, takeover: bool, target: Option<Owner>): (r: seq<Option<string>>)
    ensures |r| == |slots|
    ensures forall i :: 0 <= i < |slots| ==>
              (r[i].Some? <==> && slots[i].Some? && slots[i].value.trusted
                               && (slots[i].value.owner.Current? || (takeover && target == Some(slots[i].value.owner))))
              && (r[i].Some? ==> r[i].value == slots[i].value.content)
  {
    seq(|slots|, i requires 0 <= i < |slots| =>
      if slots[i].Some? && slots[i].value.trusted
         && (slots[i].value.owner.Current? || (takeover && target == Some(slots[i].value.owner)))
      then Some(slots[i].value.content) else None)
  }

  datatype Quarantined = Moved(slot: nat) | Unlinked | Raised

  class Units {
    var canonical: Option<Entry>
    var slots: seq<Option<Entry>>
    var enabled: bool
    var active: bool
    var detached: bool

    /** Nobody else changes the files meanwhile; renames, unlinks and syncs work. */
    const alone: bool
    const filesWork: bool
    /** Everything works but stopping the detached daemon, which fails once the daemon is gone. */
    const onlyStopFails: bool

    constructor (canonical: Option<Entry>, first: Option<Entry>, second: Option<Entry>, enabled: bool, active: bool, detached: bool,
                 alone: bool, filesWork: bool, onlyStopFails: bool)
      ensures this.canonical == canonical && slots == [first, second]
      ensures this.enabled == enabled && this.active == active && this.detached == detached
      ensures this.alone == alone && this.filesWork == filesWork && this.onlyStopFails == onlyStopFails
    {
      this.canonical, slots := canonical, [first, second];
      this.enabled, this.active, this.detached := enabled, active, detached;
      this.alone, this.filesWork, this.onlyStopFails := alone, filesWork, onlyStopFails;
    }

    // ----- files

    method Succeeds() returns (ok: bool)
      ensures onlyStopFails ==> ok
    {
      ok := *;
      ok := ok || onlyStopFails;
    }

    method Syncs() returns (ok: bool)
      ensures filesWork ==> ok
    {
      ok := *;
      ok := ok || filesWork;
    }

    method RenameToSlot(i: nat) returns (ok: bool)
      requires i < |slots|
      modifies this`canonical, this`slots
      ensures ok ==> old(canonical).Some? && old(slots)[i].None? && canonical == None && slots == old(slots)[i := old(canonical)]
      ensures !ok ==> canonical == old(canonical) && slots == old(slots)
      ensures filesWork && old(canonical).Some? && old(slots)[i].None? ==> ok
    {
      ok := *;
      ok := (ok || filesWork) && canonical.Some? && slots[i].None?;
      if ok {
        canonical, slots := None, slots[i := canonical];
      }
    }

    method RenameBack(i: nat) returns (ok: bool)
      requires i < |slots|
      modifies this`canonical, this`slots
      ensures ok ==> old(canonical).None? && old(slots)[i].Some? && canonical == old(slots)[i] && slots == old(slots)[i := None]
      ensures !ok ==> canonical == old(canonical) && slots == old(slots)
    {
      ok := *;
      ok := ok && canonical.None? && slots[i].Some?;
      if ok {
        canonical, slots := slots[i], slots[i := None];
      }
    }

    method UnlinkSlot(i: nat) returns (ok: bool)
      requires i < |slots|
      modifies this`slots
      ensures slots == if ok then old(slots)[i := None] else old(slots)
    {
      ok := *;
      if ok {
        slots := slots[i := None];
      }
    }

    method UnlinkCanonical() returns (ok: bool)
      modifies this`canonical
      ensures ok ==> old(canonical).Some? && canonical == None
      ensures !ok ==> canonical == old(canonical)
    {
      ok := *;
      ok := ok && canonical.Some?;
      if ok {
        canonical := None;
      }
    }

    /** A private write replaces the file whole; when it fails the replacement may have happened. */
    method WriteCanonical(content: string) returns (ok: bool)
      modifies this`canonical
      ensures ok ==> canonical.Some? && canonical.value.content == content
      ensures canonical == old(canonical) || (canonical.Some? && canonical.value.content == content)
    {
      ok := *;
      var replaced: bool := *;
      var inode: nat := *;
      if ok || replaced {
        canonical := Some(Entry(content, inode, Current, true));
      }
    }

    method WriteSlot(i: nat, content: string) returns (ok: bool)
      requires i < |slots|
      modifies this`slots
      ensures |slots| == |old(slots)| && forall j :: 0 <= j < |slots| && j != i ==> slots[j] == old(slots)[j]
      ensures ok ==> slots[i].Some? && slots[i].value.content == content
    {
      ok := *;
      var replaced: bool := *;
      var inode: nat := *;
      if ok || replaced {
        slots := slots[i := Some(Entry(content, inode, Current, true))];
      }
    }

    // ----- service

    method SystemctlEnable() returns (ok: bool)
      modifies this`enabled
      ensures onlyStopFails ==> ok && enabled
    {
      ok, enabled := *, *;
      if onlyStopFails {
        ok, enabled := true, true;
      }
    }

    method SystemctlDisable() returns (ok: bool)
      modifies this`enabled
      ensures onlyStopFails ==> ok && !enabled
    {
      ok, enabled := *, *;
      if onlyStopFails {
        ok, enabled := true, false;
      }
    }

    method SystemctlStart() returns (ok: bool)
      modifies this`active
    {
      ok, active := *, *;
    }

    method SystemctlStop() returns (ok: bool)
      modifies this`active
    {
      ok, active := *, *;
    }

    method IsEnabled() returns (r: Option<bool>)
      ensures r.Some? ==> r.value == enabled
      ensures onlyStopFails ==> r.Some?
    {
      var answers: bool := *;
      r := if answers || onlyStopFails then Some(enabled) else None;
    }

    method IsActive() returns (r: Option<bool>)
      ensures r.Some? ==> r.value == active
      ensures onlyStopFails ==> r.Some?
    {
      var answers: bool := *;
      r := if answers || onlyStopFails then Some(active) else None;
    }

    /** Success is a health answer from the service's own main process. */
    method WaitForHealth() returns (ok: bool)
      ensures ok ==> active
    {
      ok := *;
      ok := ok && active;
    }

    /** Stop the unit, prove it inactive and its process gone. */
    method StopManagedAndReap() returns (ok: bool)
      modifies this`active
      ensures ok ==> !active
    {
      ok := Succeeds();
      if !ok {
        return;
      }
      ok := SystemctlStop();
      if !ok {
        return;
      }
      var still := IsActive();
      if still != Some(false) {
        return false;
      }
      ok := Succeeds();
    }

    // ----- quarantine

    /** One slot's turn. Somebody else may replace the definition just before the rename. */
    method TrySlot(i: nat, before: Option<Entry>, permitted: Option<string>)
      returns (r: Option<Quarantined>, ghost meddled: bool, ghost trouble: bool)
      requires i < |slots| && before.Some?
      modifies this`canonical, this`slots
      ensures |slots| == |old(slots)| && forall j :: 0 <= j < |slots| && j != i ==> slots[j] == old(slots)[j]
      ensures !Authorised(old(slots)[i], permitted) ==> slots[i] == old(slots)[i]
      ensures r.Some? ==> r.value == Raised || r.value == Moved(i)
      ensures r == Some(Moved(i)) ==> Authorised(old(slots)[i], permitted) && old(canonical) == before == slots[i] && canonical.None?
      ensures (alone ==> !meddled) && (alone && filesWork ==> !trouble)
      ensures r.None? ==> trouble || !Authorised(old(slots)[i], permitted)
      ensures old(canonical) == before && !meddled ==> canonical == before || slots[i] == before
    {
      meddled, trouble := false, false;
      if slots[i].Some? {
        if !slots[i].value.trusted || permitted != Some(slots[i].value.content) {
          return None, meddled, trouble;
        }
        var unlinked := UnlinkSlot(i);
        if !unlinked {
          return Some(Raised), meddled, trouble;
        }
      }
      var readable := Succeeds();
      if !readable || canonical != before {
        return Some(Raised), meddled, trouble;
      }
      var meddles: bool := *;
      if meddles && !alone {
        canonical := *;
        meddled := true;
      }
      var moved := RenameToSlot(i);
      if !moved {
        return None, meddled, true;
      }
      var synced := Syncs();
      if !synced {
        return None, meddled, true;
      }
      readable := Succeeds();
      if !readable {
        return Some(Raised), meddled, trouble;
      }
      if slots[i] != before {
        var back := RenameBack(i);
        synced := Syncs();
        return if back && synced then Some(Raised) else None, meddled, !back || !synced;
      }
      var private := Succeeds();
      r := Some(if private then Moved(i) else Raised);
    }

    /**
     * Move the definition out of the way, into a slot that is free or that the snapshot
     * permits to be replaced, else unlink it.
     */
    method QuarantineUnit(expected: string, permitted: seq<Option<string>>)
      returns (r: Quarantined, ghost lastResort: bool, ghost meddled: bool, ghost failed: set<nat>)
      requires |slots| == |permitted| == 2
      modifies this`canonical, this`slots
      ensures OthersKept(old(slots), slots, permitted)
      ensures r.Moved? ==> && r.slot < 2 && Authorised(old(slots)[r.slot], permitted[r.slot])
                           && slots[r.slot] == old(canonical) && old(canonical).Some? && old(canonical).value.content == expected
                           && canonical.None?
      ensures r.Unlinked? ==> canonical.None? && lastResort
      ensures (alone ==> !meddled) && (alone && filesWork ==> failed == {})
      ensures lastResort ==> forall i :: 0 <= i < 2 ==> !Authorised(old(slots)[i], permitted[i]) || i in failed
      ensures !lastResort && !meddled ==> canonical == old(canonical) || old(canonical) in slots
    {
      lastResort, meddled, failed := false, false, {};
      var before := canonical;
      var readable := Succeeds();
      if !readable || before.None? || before.value.content != expected {
        return Raised, lastResort, meddled, failed;
      }
      for i := 0 to 2
        invariant (alone ==> !meddled) && (alone && filesWork ==> failed == {})
        invariant OthersKept(old(slots), slots, permitted)
        invariant forall j :: i <= j < 2 ==> slots[j] == old(slots)[j]
        invariant !meddled ==> canonical == before || exists j :: 0 <= j < i && slots[j] == before
        invariant forall j :: 0 <= j < i ==> !Authorised(old(slots)[j], permitted[j]) || j in failed
      {
        ghost var newMeddled, newTrouble;
        var tried;
        tried, newMeddled, newTrouble := TrySlot(i, before, permitted[i]);
        meddled, failed := meddled || newMeddled, if newTrouble then failed + {i} else failed;
        if tried.Some? {
          return tried.value, lastResort, meddled, failed;
        }
      }
      var gone := UnlinkCanonical();
      if !gone {
        return Raised, lastResort, meddled, failed;
      }
      lastResort := true;
      var synced := Syncs();
      r := if synced then Unlinked else Raised;
    }
  }
}
