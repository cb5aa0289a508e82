/** Quiescing the registration before an installation and restoring it afterwards (agent_collab/daemon_autostart_systemd.py). */
module AutostartInstall {
  import opened Common
  import opened Units
  import opened Autostart

  /** What inspection says of the registration, besides the bits. */
  datatype Identity = Identity(owned: bool, currentHome: bool, attributable: bool, argumentsMatch: bool, orphan: bool)

  datatype Snapshot = Snapshot(owned: bool, installed: bool, running: bool, enabled: bool, commandKnown: bool)

  datatype RestoreResult = Restored | SafeError | Error

  /** The bits are those of the snapshot. */
  predicate Matches(s: Snapshot, canonical: Option<Entry>, enabled: bool, active: bool) {
    canonical.Some? == s.installed && enabled == s.enabled && active == s.running
  }

  /** Refuse, or turn the login barrier off, stop the service and remember both. */
  method QuiesceForInstall(u: Units, id: Identity) returns (r: Option<Snapshot>)
    modifies u`enabled, u`active
    ensures r.Some? ==> && Matches(r.value, old(u.canonical), old(u.enabled), old(u.active))
                        && r.value.owned == id.owned && (r.value.running ==> r.value.commandKnown)
                        && !u.active && (u.enabled ==> old(u.enabled) && !id.owned)
    ensures (id.owned && !id.currentHome) || (old(u.active) && !(id.attributable && id.argumentsMatch)) || (id.orphan && !old(u.active)) ==>
              r.None? && u.enabled == old(u.enabled) && u.active == old(u.active)
  {
    if id.owned && !id.currentHome {
      return None;
    }
    var readable := u.Succeeds();
    var loaded := u.IsActive();
    var enabled := u.IsEnabled();
    if !readable || loaded.None? || enabled.None? {
      return None;
    }
    if loaded.value && (u.canonical.None? || !id.attributable) {
      return None;
    }
    if loaded.value && !id.argumentsMatch {
      return None;
    }
    if id.orphan && !loaded.value {
      return None;
    }
    var snapshot := Snapshot(id.owned, u.canonical.Some?, loaded.value, enabled.value, id.attributable);
    if id.owned && enabled.value {
      var disabled := u.SystemctlDisable();
      enabled := u.IsEnabled();
      if !disabled || enabled != Some(false) {
        return None;
      }
    }
    if loaded.value {
      var stopped := u.StopManagedAndReap();
      if !stopped {
        return None;
      }
    }
    r := Some(snapshot);
  }

  /** Read the status back and compare it with the snapshot. */
  method ValidateRestoredStatus(u: Units, s: Snapshot) returns (ok: bool)
    ensures ok ==> Matches(s, u.canonical, u.enabled, u.active)
  {
    ok := u.Succeeds();
    var enabled := u.IsEnabled();
    var active := u.IsActive();
    if !ok || enabled.None? || active.None? || u.canonical.Some? != s.installed {
      return false;
    }
    if s.installed {
      var current := u.Succeeds();
      if !current {
        return false;
      }
    }
    if enabled.value != s.enabled {
      return false;
    }
    if s.running {
      var healthy := u.Succeeds();
      return active.value && healthy;
    }
    ok := !active.value;
  }

  /** Disable and stop at once, and prove it. With a cause it never returns normally. */
  method EstablishDisabledStopped(u: Units, cause: bool) returns (r: RestoreResult)
    modifies u`enabled, u`active
    ensures r.Restored? || r.SafeError? ==> !u.enabled && !u.active
    ensures cause ==> !r.Restored?
    ensures !cause ==> !r.SafeError?
  {
    var _ := u.SystemctlDisable();
    var _ := u.SystemctlStop();
    var enabled := u.IsEnabled();
    var active := u.IsActive();
    if enabled != Some(false) || active != Some(false) {
      return Error;
    }
    r := if cause then SafeError else Restored;
  }

  /** A stopped service whose installation failed: only its enabled bit is put back. */
  method RestoreStopped(u: Units, s: Snapshot) returns (ok: bool)
    requires !s.running && s.enabled
    modifies u`enabled
    ensures ok ==> Matches(s, u.canonical, u.enabled, u.active)
  {
    var durable := u.Succeeds();
    var active := u.IsActive();
    if !durable || active != Some(false) {
      return false;
    }
    ok := u.SystemctlEnable();
    if !ok {
      return;
    }
    var enabled := u.IsEnabled();
    active := u.IsActive();
    if enabled != Some(true) || active != Some(false) {
      return false;
    }
    ok := ValidateRestoredStatus(u, s);
  }

  /** Start what was running, wait for it, put back the enabled bit and compare. */
  method RestoreRunning(u: Units, s: Snapshot, mutationFailed: bool) returns (ok: bool)
    modifies u`enabled, u`active
    ensures ok ==> Matches(s, u.canonical, u.enabled, u.active)
  {
    if mutationFailed {
      ok := u.Succeeds();
      if !ok {
        return;
      }
    }
    if s.running {
      ok := u.SystemctlStart();
      if !ok || !s.commandKnown {
        return false;
      }
      ok := u.WaitForHealth();
      if !ok && mutationFailed {
        // An older daemon may answer only the legacy health endpoint.
        ok := u.WaitForHealth();
      }
      if !ok {
        return;
      }
    }
    if s.enabled {
      ok := u.SystemctlEnable();
      if !ok {
        return;
      }
    }
    ok := ValidateRestoredStatus(u, s);
  }

  /**
   * Restoring returns with installed, enabled and running as in the snapshot, or raises; a
   * safe error means that the service is disabled and stopped.
   */
  method RestoreAfterInstall(u: Units, s: Snapshot, mutationSucceeded: bool) returns (r: RestoreResult)
    modifies u`enabled, u`active
    ensures r.Restored? ==> Matches(s, u.canonical, u.enabled, u.active)
    ensures r.SafeError? ==> !u.enabled && !u.active
  {
    var mutationFailed := s.owned && !mutationSucceeded;
    if mutationFailed && !s.running {
      if s.enabled {
        var ok := RestoreStopped(u, s);
        if ok {
          return Restored;
        }
        r := EstablishDisabledStopped(u, true);
        return;
      }
      r := EstablishDisabledStopped(u, false);
      if r.Restored? {
        var ok := ValidateRestoredStatus(u, s);
        r := if ok then Restored else Error;
      }
      return;
    }
    var ok := RestoreRunning(u, s, mutationFailed);
    if ok {
      return Restored;
    }
    if !s.commandKnown {
      return Error;
    }
    var cleaned := CleanupFailedCandidate(u);
    r := if cleaned then SafeError else Error;
  }

  /** Around an installation that may rewrite the definition and may fail, the registration comes back as it was, or an error says otherwise. */
  method QuiesceThenRestore(u: Units, id: Identity, mutationSucceeded: bool) returns (quiesced: bool, r: RestoreResult)
    modifies u
    ensures quiesced && r.Restored? ==>
              u.canonical.Some? == old(u.canonical).Some? && u.enabled == old(u.enabled) && u.active == old(u.active)
    ensures quiesced && r.SafeError? ==> !u.enabled && !u.active
  {
    var s := QuiesceForInstall(u, id);
    if s.None? {
      return false, Error;
    }
    u.canonical := *;
    r := RestoreAfterInstall(u, s.value, mutationSucceeded);
    quiesced := true;
  }
}
