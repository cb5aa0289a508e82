/**
 * Registration with systemd as a transaction with faults
 * (agent_collab/daemon_autostart_systemd.py): enabling with its rollback, and quiescing and
 * restoring around an installation.
 */
module Autostart {
  import opened Common
  import opened Units

  /** What enabling finds out, besides the files and bits, before it changes anything. */
  datatype Findings = Findings(
    takeover: bool,
    activeAttributable: bool,     // the running process is attributable to agent-collab
    activeCurrent: bool,          // and to this home and interpreter
    activeMismatch: bool,         // but not to the definition on disk
    ownerReachable: bool)         // the other home of a definition still has its token

  datatype EnableResult = Enabled(lostBytes: bool) | Refused | Failed(recoveryErrors: bool, lostBytes: bool)

  /** What the attempt had done when it ended. */
  datatype Progress = Progress(
    ok: bool, barrier: bool, displaced: Option<nat>, lostBytes: bool, written: bool, attempted: bool, stoppedDetached: bool)

  predicate Irreversible(f: Findings, existing: Option<Entry>, wasActive: bool) {
    f.takeover
    && (|| (wasActive && existing.Some? && f.activeMismatch)
        || (existing.None? && wasActive && !f.activeCurrent)
        || (existing.Some? && !existing.value.owner.Current? && !f.ownerReachable))
  }

  /** Refusals for a definition or a recovery slot of another home without takeover, or a running process of someone else. */
  predicate Acceptable(f: Findings, existing: Option<Entry>, slots: seq<Option<Entry>>, wasActive: bool) {
    && (existing.Some? ==> existing.value.trusted && (existing.value.owner.Current? || f.takeover))
    && (existing.None? ==> forall i :: 0 <= i < |slots| && slots[i].Some? && slots[i].value.trusted ==>
                             slots[i].value.owner.Current? || f.takeover)
    && (wasActive && !f.activeCurrent ==> f.activeAttributable && f.takeover)
  }

  /** Disable the candidate, stop it, and prove both and its processes gone. */
  method CleanupFailedCandidate(u: Units) returns (ok: bool)
    modifies u`enabled, u`active
    ensures ok ==> !u.enabled && !u.active
  {
    var proven := u.Succeeds();
    if !proven {
      return false;
    }
    var _ := u.SystemctlDisable();
    var enabled := u.IsEnabled();
    if enabled != Some(false) {
      return false;
    }
    var active := u.IsActive();
    proven := u.Succeeds();
    if active.None? || !proven {
      return false;
    }
    if active.value {
      var stopped := u.StopManagedAndReap();
      if !stopped {
        return false;
      }
    }
    active := u.IsActive();
    if active != Some(false) {
      return false;
    }
    ok := u.Succeeds();
  }

  /** Put back the definition, then the enabled bit, then the running service, as they were found. */
  method RollbackFailedEnable(u: Units, previous: Option<string>, changed: bool, wasActive: bool, wasEnabled: bool, attempted: bool)
    returns (ok: bool)
    modifies u`canonical, u`enabled, u`active
    ensures !changed ==> u.canonical == old(u.canonical)
    ensures u.canonical == old(u.canonical) || (if previous.None? then u.canonical.None? else u.canonical.Some? && u.canonical.value.content == previous.value)
    ensures ok && changed ==> (previous.None? ==> u.canonical.None?)
                              && (previous.Some? ==> u.canonical.Some? && u.canonical.value.content == previous.value)
    ensures ok && (!wasEnabled || previous.Some?) ==> u.enabled == wasEnabled
    ensures ok && wasActive && previous.Some? ==> u.active
    ensures ok && !(wasActive && previous.Some?) ==> u.active == (!attempted && old(u.active))
    ensures u.onlyStopFails && !changed && !wasActive && !attempted ==> ok
  {
    if attempted {
      var cleaned := CleanupFailedCandidate(u);
      if !cleaned {
        return false;
      }
    }
    if changed {
      if previous.None? {
        if u.canonical.Some? {
          var gone := u.UnlinkCanonical();
          if !gone {
            return false;
          }
        }
      } else {
        var written := u.WriteCanonical(previous.value);
        if !written {
          return false;
        }
      }
      var reloaded := u.Succeeds();
      if !reloaded {
        return false;
      }
    }
    if wasEnabled && previous.Some? {
      ok := u.SystemctlEnable();
      if !ok {
        return;
      }
      var enabled := u.IsEnabled();
      if enabled != Some(true) {
        return false;
      }
    } else if !wasEnabled {
      var _ := u.SystemctlDisable();
      var enabled := u.IsEnabled();
      if enabled != Some(false) {
        return false;
      }
    }
    if wasActive && previous.Some? {
      ok := u.SystemctlStart();
      if !ok {
        return;
      }
      var authenticated := u.Succeeds();
      if !authenticated {
        return false;
      }
      ok := u.WaitForHealth();
      return;
    }
    ok := true;
  }

  /** Stop a detached daemon; a failure may come before or after it has stopped. */
  method StopDetached(u: Units) returns (ok: bool, ghost halfStopped: bool)
    modifies u`detached
    ensures ok ==> !u.detached
    ensures halfStopped <==> !ok && old(u.detached) && !u.detached
    ensures !ok && !halfStopped ==> u.detached == old(u.detached)
    ensures u.onlyStopFails && old(u.detached) ==> halfStopped
  {
    ok := *;
    var stopped: bool := *;
    if u.onlyStopFails {
      ok, stopped := false, true;
    }
    halfStopped := !ok && u.detached && stopped;
    if ok || stopped {
      u.detached := false;
    }
  }

  method RestoreDetached(u: Units) returns (ok: bool)
    modifies u`detached
    ensures ok ==> u.detached
    ensures !ok ==> u.detached == old(u.detached)
  {
    ok := u.Succeeds();
    if ok {
      u.detached := true;
    }
  }

  /** The definition is in place or in a recovery slot. */
  predicate Retained(existing: Option<Entry>, canonical: Option<Entry>, slots: seq<Option<Entry>>) {
    existing.None? || canonical == existing || existing in slots
  }

  /** Displace the old definition and write the new one. Unless somebody else interferes, only a last-resort unlink loses it. */
  method Replace(u: Units, expected: string, existing: Option<Entry>, permitted: seq<Option<string>>, start: Progress)
    returns (p: Progress, done: bool, ghost lost: bool)
    requires |u.slots| == |permitted| == 2 && start.displaced.None? && !start.written && u.canonical == existing
    modifies u`canonical, u`slots
    ensures OthersKept(old(u.slots), u.slots, permitted)
    ensures p.displaced.Some? ==> p.displaced.value < 2 && Authorised(old(u.slots)[p.displaced.value], permitted[p.displaced.value])
    ensures p == start.(displaced := p.displaced, lostBytes := p.lostBytes, written := p.written)
    ensures done ==> u.canonical.Some? && u.canonical.value.content == expected && p.written
    ensures lost ==> !u.alone || !u.filesWork || forall i :: 0 <= i < 2 ==> !Authorised(old(u.slots)[i], permitted[i])
    ensures !lost ==> Retained(existing, u.canonical, u.slots)
    ensures !lost && p.written && existing.Some? ==> existing in u.slots
  {
    p, done, lost := start, false, false;
    if existing.Some? {
      var r, lastResort, meddled, _ := u.QuarantineUnit(existing.value.content, permitted);
      lost := lastResort || meddled;
      if r.Raised? {
        return;
      }
      p := p.(displaced := if r.Moved? then Some(r.slot) else None, lostBytes := r.Unlinked?);
      var reloaded := u.Succeeds();
      if !reloaded {
        return;
      }
    }
    var written := u.WriteCanonical(expected);
    if !written {
      return;
    }
    p := p.(written := true);
    done := u.Succeeds();
  }

  /** Make way for the candidate, enable and start it, and see it up. */
  method StartCandidate(u: Units, start: Progress, renew: bool, wasActive: bool)
    returns (p: Progress, ghost halfStopped: bool)
    requires !start.stoppedDetached && !start.attempted && !start.ok
    modifies u`detached, u`enabled, u`active
    ensures p == start.(ok := p.ok, attempted := p.attempted, stoppedDetached := p.stoppedDetached)
    ensures !wasActive && !p.attempted ==> u.active == old(u.active)
    ensures p.stoppedDetached ==> !wasActive && old(u.detached)
    ensures halfStopped ==> !p.ok && !p.stoppedDetached && !p.attempted && old(u.detached) && !u.detached
    ensures !p.stoppedDetached && !halfStopped ==> u.detached == old(u.detached)
    ensures p.stoppedDetached ==> !u.detached
    ensures p.ok ==> u.enabled && u.active
    ensures u.onlyStopFails && !wasActive && old(u.detached) ==> halfStopped && !p.ok && u.enabled == old(u.enabled) && !p.attempted
  {
    p, halfStopped := start, false;
    if !wasActive && u.detached {
      var stopped;
      stopped, halfStopped := StopDetached(u);
      if !stopped {
        return;
      }
      p := p.(stoppedDetached := true);
    }
    var enabling := u.SystemctlEnable();
    if !enabling {
      return;
    }
    if renew || !wasActive {
      p := p.(attempted := true);
      var started := u.SystemctlStart();
      if !started {
        return;
      }
    }
    var healthy := u.WaitForHealth();
    if !healthy {
      return;
    }
    var enabled := u.IsEnabled();
    var active := u.IsActive();
    p := p.(ok := enabled == Some(true) && active == Some(true));
  }

  /** The steps of enabling, up to the first that fails. */
  method Attempt(
    u: Units, expected: string, existing: Option<Entry>, permitted: seq<Option<string>>,
    irreversible: bool, changed: bool, wasActive: bool)
    returns (p: Progress, ghost halfStopped: bool, ghost lost: bool)
    requires |u.slots| == |permitted| == 2 && u.canonical == existing && u.active == wasActive
    requires !changed ==> existing.Some? && existing.value.content == expected
    modifies u
    ensures OthersKept(old(u.slots), u.slots, permitted)
    ensures !changed ==> u.canonical == existing && u.slots == old(u.slots)
    ensures p.displaced.Some? ==> changed && p.displaced.value < 2 && Authorised(old(u.slots)[p.displaced.value], permitted[p.displaced.value])
    ensures !wasActive && !p.attempted ==> !u.active
    ensures p.stoppedDetached ==> !wasActive && old(u.detached)
    ensures halfStopped ==> !p.ok && !p.stoppedDetached && old(u.detached) && !u.detached
    ensures !p.stoppedDetached && !halfStopped ==> u.detached == old(u.detached)
    ensures u.onlyStopFails && !wasActive && old(u.detached) && !irreversible && !changed ==>
              halfStopped && !p.ok && !p.attempted && !p.stoppedDetached && p.displaced.None? && !p.lostBytes && u.enabled == old(u.enabled)
    ensures irreversible && !p.barrier ==> u.canonical == existing && u.slots == old(u.slots) && u.active == wasActive && !p.ok
    ensures p.ok ==> u.canonical.Some? && u.canonical.value.content == expected && u.enabled && u.active
    ensures lost ==> !u.alone || !u.filesWork || forall i :: 0 <= i < 2 ==> !Authorised(old(u.slots)[i], permitted[i])
    ensures !lost ==> Retained(existing, u.canonical, u.slots)
    ensures !lost && p.written && existing.Some? ==> existing in u.slots
    ensures p.written ==> changed
  {
    p := Progress(false, false, None, false, false, false, false);
    halfStopped, lost := false, false;
    if irreversible {
      var disabled := u.SystemctlDisable();
      var enabled := u.IsEnabled();
      if !disabled || enabled != Some(false) {
        return;
      }
      p := p.(barrier := true);
    }
    var unhealthy: bool := *;
    var renew := wasActive && (changed || unhealthy);
    if renew {
      var stopped := u.StopManagedAndReap();
      if !stopped {
        return;
      }
    }
    if changed {
      var done;
      p, done, lost := Replace(u, expected, existing, permitted, p);
      if !done {
        return;
      }
    }
    p, halfStopped := StartCandidate(u, p, renew, wasActive);
  }

  /** Remove what was displaced and what the snapshot permits; a failure is only a warning. */
  method PostCommitCleanup(u: Units, displaced: Option<nat>, permitted: seq<Option<string>>)
    requires |u.slots| == |permitted| == 2 && (displaced.Some? ==> displaced.value < 2)
    modifies u`slots
    ensures |u.slots| == 2
    ensures forall i :: 0 <= i < 2 && !Authorised(old(u.slots)[i], permitted[i]) && displaced != Some(i) ==> u.slots[i] == old(u.slots)[i]
  {
    if displaced.Some? {
      var _ := u.UnlinkSlot(displaced.value);
    }
    for i := 0 to 2
      invariant |u.slots| == 2
      invariant forall j :: 0 <= j < 2 && !Authorised(old(u.slots)[j], permitted[j]) && displaced != Some(j) ==> u.slots[j] == old(u.slots)[j]
    {
      if u.slots[i].None? || permitted[i].None? {
        continue;
      }
      if !u.slots[i].value.trusted {
        return;
      }
      if u.slots[i].value.content == permitted[i].value {
        var gone := u.UnlinkSlot(i);
        if !gone {
          return;
        }
      }
    }
  }

  /** After an irreversible takeover nothing is put back: the candidate is made unloadable. */
  method RemoveFailedTakeover(u: Units, p: Progress) returns (proven: bool)
    modifies u`canonical, u`enabled, u`active
    ensures proven && p.attempted ==> !u.enabled && !u.active
    ensures !p.written ==> u.canonical == old(u.canonical)
  {
    proven := true;
    if p.attempted {
      proven := CleanupFailedCandidate(u);
      if !proven {
        return;
      }
    }
    if p.written && u.canonical.Some? {
      var parses := u.Succeeds();
      if parses {
        var _ := u.UnlinkCanonical();
      }
    }
  }

  /** Recoveries of other homes are as before, except in a takeover of their own definition. */
  predicate OtherHomesKept(before: seq<Option<Entry>>, after: seq<Option<Entry>>, takeover: bool, target: Option<Owner>) {
    |after| == |before| &&
    forall i :: 0 <= i < |before| && before[i].Some? && before[i].value.owner.Other? && (!takeover || target != Some(before[i].value.owner)) ==>
      after[i] == before[i]
  }

  lemma SparedAreKept(before: seq<Option<Entry>>, after: seq<Option<Entry>>, takeover: bool, target: Option<Owner>)
    requires OthersKept(before, after, AuthorizedSnapshot(before, takeover, target))
    ensures OtherHomesKept(before, after, takeover, target)
  {
    forall i | 0 <= i < |before| && before[i].Some? && before[i].value.owner.Other? && (!takeover || target != Some(before[i].value.owner))
      ensures after[i] == before[i]
    {
      SnapshotSparesOthers(before, takeover, target, i);
    }
  }

  predicate Kept(content: string, canonical: Option<Entry>, slots: seq<Option<Entry>>) {
    || (canonical.Some? && canonical.value.content == content)
    || (exists i :: 0 <= i < |slots| && slots[i].Some? && slots[i].value.content == content)
  }

  /** What enabling does after a failed attempt; the result says whether that itself met errors. */
  method RecoverFailedEnable(
    u: Units, p: Progress, existing: Option<Entry>, irreversible: bool, changed: bool, wasActive: bool, wasEnabled: bool, ghost lost: bool)
    returns (errors: bool)
    requires |u.slots| == 2 && (p.displaced.Some? ==> changed && p.displaced.value < 2)
    requires !changed ==> u.canonical == existing
    requires !wasActive && !p.attempted ==> !u.active
    requires irreversible && !p.barrier ==> u.canonical == existing
    requires !lost ==> Retained(existing, u.canonical, u.slots) && (p.written && existing.Some? ==> existing in u.slots)
    modifies u
    ensures |u.slots| == 2 && forall i :: 0 <= i < 2 && p.displaced != Some(i) ==> u.slots[i] == old(u.slots)[i]
    ensures irreversible ==> errors
    ensures !errors && existing.Some? ==>
              u.canonical.Some? && u.canonical.value.content == existing.value.content && u.enabled == wasEnabled && u.active == wasActive
    ensures !errors && existing.None? ==> u.canonical.None? && (!wasEnabled ==> !u.enabled) && (u.active ==> wasActive)
    ensures !errors ==> u.detached == (p.stoppedDetached || old(u.detached))
    ensures u.onlyStopFails && !irreversible && !changed && existing.Some? && !wasActive && !p.attempted && !p.stoppedDetached && p.displaced.None? ==>
              !errors
    ensures !lost && existing.Some? ==> Kept(existing.value.content, u.canonical, u.slots)
  {
    if irreversible {
      if p.barrier {
        var proven := RemoveFailedTakeover(u, p);
        if p.stoppedDetached && proven {
          var _ := RestoreDetached(u);
        }
      }
      return true;
    }
    var previous := if existing.Some? then Some(existing.value.content) else None;
    var rolledBack := RollbackFailedEnable(u, previous, changed, wasActive, wasEnabled, p.attempted);
    errors := !rolledBack;
    if rolledBack && p.displaced.Some? {
      var removed := u.UnlinkSlot(p.displaced.value);
      errors := !removed;
    }
    if p.stoppedDetached && rolledBack {
      var restored := RestoreDetached(u);
      errors := errors || !restored;
    }
  }

  /**
   * Register with systemd. A failure without recovery errors, not in an irreversible
   * takeover, has put back definition, enabled and active bit of an existing registration,
   * and a detached daemon unless stopping it failed half-way.
   */
  method EnableAutostart(u: Units, expected: string, f: Findings) returns (r: EnableResult, ghost halfStopped: bool, ghost lost: bool)
    requires |u.slots| == 2
    modifies u
    ensures r.Refused? ==> u.canonical == old(u.canonical) && u.slots == old(u.slots)
                           && u.enabled == old(u.enabled) && u.active == old(u.active) && u.detached == old(u.detached)
    ensures r.Enabled? ==> u.canonical.Some? && u.canonical.value.content == expected && u.enabled && u.active
    ensures !r.Refused? ==> Acceptable(f, old(u.canonical), old(u.slots), old(u.active))
    ensures OthersKept(old(u.slots), u.slots, AuthorizedSnapshot(old(u.slots), f.takeover, Target(old(u.canonical), old(u.slots))))
    ensures r.Failed? && !r.recoveryErrors ==> !Irreversible(f, old(u.canonical), old(u.active))
    ensures r.Failed? && !r.recoveryErrors && old(u.canonical).Some? ==>
              && u.canonical.Some? && u.canonical.value.content == old(u.canonical).value.content
              && u.enabled == old(u.enabled) && u.active == old(u.active)
    ensures r.Failed? && !r.recoveryErrors && old(u.canonical).None? ==>
              u.canonical.None? && (!old(u.enabled) ==> !u.enabled) && (u.active ==> old(u.active))
    ensures halfStopped ==> r.Failed? && old(u.detached)
    ensures r.Failed? && !r.recoveryErrors ==> (u.detached != old(u.detached) <==> halfStopped)
    ensures u.onlyStopFails && HalfStopSetting(old(u.canonical), expected, f, old(u.active), old(u.detached)) && old(u.slots) == [None, None] ==>
              r == Failed(false, false) && halfStopped
    ensures OtherHomesKept(old(u.slots), u.slots, f.takeover, Target(old(u.canonical), old(u.slots)))
    ensures lost ==> !u.alone || !u.filesWork
                     || forall i :: 0 <= i < 2 ==> old(u.slots)[i].Some? && AuthorizedSnapshot(old(u.slots), f.takeover, Target(old(u.canonical), old(u.slots)))[i].None?
    ensures r.Failed? && !lost && old(u.canonical).Some? ==> Kept(old(u.canonical).value.content, u.canonical, u.slots)
  {
    halfStopped, lost := false, false;
    hide OtherHomesKept;
    ghost var before := u.slots;
    var existing := u.canonical;
    var ready := u.Succeeds();
    var wasActive := u.IsActive();
    var wasEnabled := u.IsEnabled();
    if !ready || wasActive.None? || wasEnabled.None? || !Acceptable(f, existing, u.slots, wasActive.value) {
      assert OthersKept(before, u.slots, AuthorizedSnapshot(before, f.takeover, Target(existing, before)));
      SparedAreKept(before, u.slots, f.takeover, Target(existing, before));
      return Refused, halfStopped, lost;
    }
    var permitted := AuthorizedSnapshot(u.slots, f.takeover, Target(existing, u.slots));
    var irreversible := Irreversible(f, existing, wasActive.value);
    var mismatch := wasActive.value && existing.Some? && f.activeMismatch;
    var changed := existing.None? || existing.value.content != expected || mismatch;
    var p;
    p, halfStopped, lost := Attempt(u, expected, existing, permitted, irreversible, changed, wasActive.value);
    if p.ok {
      PostCommitCleanup(u, p.displaced, permitted);
      SparedAreKept(before, u.slots, f.takeover, Target(existing, before));
      return Enabled(p.lostBytes), halfStopped, lost;
    }
    var errors := RecoverFailedEnable(u, p, existing, irreversible, changed, wasActive.value, wasEnabled.value, lost);
    r := Failed(errors, p.lostBytes);
    SparedAreKept(before, u.slots, f.takeover, Target(existing, before));
  }

  /** A current definition that is registered but not running, with a detached daemon in its place. */
  predicate HalfStopSetting(existing: Option<Entry>, expected: string, f: Findings, wasActive: bool, detached: bool) {
    && existing.Some? && existing.value.trusted && existing.value.owner.Current? && existing.value.content == expected
    && !f.takeover && !wasActive && detached
  }

  /** Such a failure happens: enabling fails without recovery errors, and the detached daemon stays gone. */
  method HalfStoppedRun() returns (u: Units, r: EnableResult)
    ensures r == Failed(false, false) && u.canonical.Some? && u.canonical.value.content == "unit" && u.enabled && !u.active
    ensures !u.detached
  {
    u := new Units(Some(Entry("unit", 1, Current, true)), None, None, true, false, true, true, true, true);
    ghost var halfStopped, lost;
    r, halfStopped, lost := EnableAutostart(u, "unit", Findings(false, true, true, false, true));
  }

  /** The registration a takeover is aimed at: the definition, else the first recovery there is. */
  function Target(existing: Option<Entry>, slots: seq<Option<Entry>>): Option<Owner>
    requires |slots| == 2
  {
    if existing.Some? then Some(existing.value.owner)
    else if slots[0].Some? && slots[0].value.trusted then Some(slots[0].value.owner)
    else if slots[1].Some? && slots[1].value.trusted then Some(slots[1].value.owner)
    else None
  }
}
