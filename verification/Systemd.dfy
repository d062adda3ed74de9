/** Installing and uninstalling the systemd service: what is destroyed, and what a failure leaves behind. */
module Systemd {
  import opened Options
  import opened UnitFiles
  import UnitText

  datatype Fragment = Absent | FromUnit(inode: nat) | Elsewhere
  datatype Enablement = Enabled | Disabled | Unstated | OtherEnablement
  datatype Activity = Active | Inactive | Activating | Reloading | Deactivating | Failed

  /** The manager's view of the service; `shadow` is whether another search directory defines it, `dropIns` whether it is extended. */
  datatype Manager = Manager(loaded: Fragment, shadow: bool, dropIns: bool, enabled: Enablement, active: Activity)

  datatype Properties = Properties(loaded: Fragment, dropIns: bool, enabled: Enablement, active: Activity)

  predicate Missing(p: Properties) {
    p.loaded == Absent && p.active == Inactive && !p.dropIns && (p.enabled == Unstated || p.enabled == Disabled)
  }

  predicate ResolvesToUnit(p: Properties) {
    p.loaded.FromUnit? && !p.dropIns
  }

  /** What a reload would load. */
  function View(fs: Fs, m: Manager): Fragment {
    if Unit in fs.entries then FromUnit(fs.entries[Unit]) else if m.shadow then Elsewhere else Absent
  }

  predicate Running(a: Activity) { a != Inactive && a != Failed }

  /** How stopping may leave a service. */
  predicate StopsAs(before: Activity, after: Activity) {
    after == Inactive || (before != Inactive && after == Failed)
  }

  /** No trace of the service. */
  predicate Uninstalled(fs: Fs, m: Manager) {
    Unit !in fs.entries && m.loaded == Absent && m.active == Inactive && (m.enabled == Disabled || m.enabled == Unstated)
  }

  /** Nothing installed under this name, nothing enabled, nothing running. */
  predicate NotInstalled(fs: Fs, m: Manager) {
    Unit !in fs.entries && m.loaded == Absent && m.enabled != Enabled && !Running(m.active)
  }

  /** The rendered unit is in place, loaded, enabled and active. */
  predicate Installed(fs: Fs, m: Manager, rendered: string) {
    && Unit in fs.entries && fs.entries[Unit] in fs.bytes && fs.bytes[fs.entries[Unit]] == rendered
    && m.enabled == Enabled && m.active == Active && m.loaded == FromUnit(fs.entries[Unit])
  }

  /** A managed unit for this scope, loaded as it is, without extensions, and plainly on or off. */
  ghost predicate Manageable(fs: Fs, m: Manager, system: bool) {
    && Unit in fs.entries && fs.entries[Unit] in fs.bytes
    && UnitText.HasSystemdUnitMarker(fs.bytes[fs.entries[Unit]])
    && UnitText.InstallsOnlyInto(UnitText.SplitLines(fs.bytes[fs.entries[Unit]]), system)
    && m.loaded == FromUnit(fs.entries[Unit]) && Plain(m)
  }

  /** A state that can be restored: loaded from the unit path, not extended, plainly on or off. */
  predicate Plain(m: Manager) {
    && (m.active == Active || m.active == Inactive) && (m.enabled == Enabled || m.enabled == Disabled)
    && m.loaded.FromUnit? && !m.dropIns
  }

  /** Neither a unit file nor anything the manager knows of it. */
  predicate Clear(fs: Fs, m: Manager) {
    Unit !in fs.entries && m.loaded == View(fs, m) && Missing(Properties(m.loaded, m.dropIns, m.enabled, m.active))
  }

  class Systemd {
    const dir: Directory
    /** Only our own commands change the service, apart from its own start-up and exit. */
    const quiet: bool
    /** Commands and queries made to undo something succeed. */
    const reliable: bool
    /** Nothing fails, nothing left open here refuses, and what is started stays up. */
    const smooth: bool
    const system: bool
    var m: Manager

    ghost predicate Valid()
      reads this, dir
    {
      dir.Valid() && dir.quiet == quiet && dir.reliable == reliable && dir.smooth == smooth
    }

    constructor (dir: Directory, m: Manager, system: bool)
      requires dir.Valid()
      ensures Valid() && this.dir == dir && this.m == m && this.system == system
    {
      this.dir, this.system, this.m := dir, system, m;
      this.quiet, this.reliable, this.smooth := dir.quiet, dir.reliable, dir.smooth;
    }

    method Foreign()
      requires Valid()
      modifies this, dir
      ensures Valid() && Untouched(old(dir.fs), dir.fs) && (quiet ==> dir.fs == old(dir.fs) && m == old(m))
    {
      dir.Foreign();
      if !quiet { m := *; }
    }

    predicate Sure(undoing: bool) { reliable && (undoing || smooth) }

    method Fails(undoing: bool) returns (fails: bool)
      ensures Sure(undoing) ==> !fails
    {
      fails := *;
      if Sure(undoing) { fails := false; }
    }

    /** The properties, unless the query fails or a reload is pending. */
    method QueryUnitProperties(undoing: bool) returns (p: Option<Properties>)
      requires Valid()
      modifies this, dir
      ensures Valid() && Untouched(old(dir.fs), dir.fs) && (quiet ==> dir.fs == old(dir.fs) && m == old(m))
      ensures p.Some? ==> m.loaded == View(dir.fs, m) && p.value == Properties(m.loaded, m.dropIns, m.enabled, m.active)
      ensures quiet && Sure(undoing) && m.loaded == View(dir.fs, m) ==> p.Some?
    {
      Foreign();
      var fails := Fails(undoing);
      if fails || m.loaded != View(dir.fs, m) { return None; }
      p := Some(Properties(m.loaded, m.dropIns, m.enabled, m.active));
    }

    method DaemonReload(undoing: bool) returns (ok: bool)
      requires Valid()
      modifies this, dir
      ensures Valid() && Untouched(old(dir.fs), dir.fs) && (quiet ==> dir.fs == old(dir.fs))
      ensures Sure(undoing) ==> ok
      ensures quiet ==> m == old(m).(loaded := if ok then View(dir.fs, old(m)) else m.loaded)
      ensures quiet && !ok ==> m.loaded == old(m).loaded || m.loaded == View(dir.fs, old(m))
    {
      Foreign();
      var fails := Fails(undoing);
      var takes: bool := *;
      if !fails || takes { m := m.(loaded := View(dir.fs, m)); }
      ok := !fails;
    }

    /** Success means active; a failed start may leave a service that did run in any state. */
    method Start(undoing: bool) returns (ok: bool)
      requires Valid()
      modifies this, dir
      ensures Valid() && Untouched(old(dir.fs), dir.fs) && (quiet ==> dir.fs == old(dir.fs))
      ensures Sure(undoing) ==> ok
      ensures quiet ==> m == old(m).(active := m.active)
      ensures quiet && ok ==> m.active == Active
    {
      Foreign();
      var fails := Fails(undoing);
      var left: Activity := *;
      m := m.(active := if fails then left else Active);
      ok := !fails;
    }

    method Stop(undoing: bool) returns (ok: bool)
      requires Valid()
      modifies this, dir
      ensures Valid() && Untouched(old(dir.fs), dir.fs) && (quiet ==> dir.fs == old(dir.fs))
      ensures Sure(undoing) ==> ok
      ensures quiet ==> m == old(m).(active := m.active) && (old(m).active == Inactive ==> m.active == Inactive)
      ensures quiet && ok ==> StopsAs(old(m).active, m.active)
      ensures smooth ==> m.active == Inactive
    {
      Foreign();
      var fails := Fails(undoing);
      var left: Activity := *;
      if m.active != Inactive {
        m := m.(active := if fails then left else if left == Failed && !smooth then Failed else Inactive);
      }
      ok := !fails;
    }

    method Enable(undoing: bool) returns (ok: bool)
      requires Valid()
      modifies this, dir
      ensures Valid() && Untouched(old(dir.fs), dir.fs) && (quiet ==> dir.fs == old(dir.fs))
      ensures Sure(undoing) ==> ok
      ensures quiet ==> m == old(m).(enabled := m.enabled)
      ensures quiet ==> m.enabled == Enabled || (!ok && m.enabled == old(m).enabled)
    {
      Foreign();
      var fails := Fails(undoing);
      var takes: bool := *;
      if !fails || takes { m := m.(enabled := Enabled); }
      ok := !fails;
    }

    /** Disables and stops; a failure may have done either, both or neither. */
    method DisableNow(undoing: bool) returns (ok: bool)
      requires Valid()
      modifies this, dir
      ensures Valid() && Untouched(old(dir.fs), dir.fs) && (quiet ==> dir.fs == old(dir.fs))
      ensures Sure(undoing) ==> ok
      ensures quiet ==> m == old(m).(enabled := m.enabled, active := m.active)
      ensures quiet ==> m.enabled == Disabled || (!ok && m.enabled == old(m).enabled)
      ensures quiet ==> (old(m).active == Inactive ==> m.active == Inactive)
      ensures quiet && ok ==> StopsAs(old(m).active, m.active)
      ensures smooth ==> m.active == Inactive
    {
      Foreign();
      var fails := Fails(undoing);
      var takes: bool, left: Activity := *, *;
      if !fails || takes { m := m.(enabled := Disabled); }
      if m.active != Inactive {
        m := m.(active := if fails then left else if left == Failed && !smooth then Failed else Inactive);
      }
      ok := !fails;
    }

    // ------------------------------------------------------------ uninstall

    /** Nothing of ours was created, replaced, moved or removed, and in a quiet world nothing changed at all. */
    twostate predicate Looked()
      reads this, dir
    {
      Untouched(old(dir.fs), dir.fs) && (quiet ==> dir.fs == old(dir.fs) && m == old(m))
    }

    /** `asked` is the manager as the query saw it, between two checks of the file. */
    method RequirePublishedUnitLoaded(p: Publication, undoing: bool) returns (ok: bool, ghost asked: Manager)
      requires Valid() && p.name == Unit
      modifies this, dir
      ensures Valid() && Looked()
      ensures ok ==> Holds(dir.fs, p) && asked.loaded.FromUnit? && !asked.dropIns
      ensures ok && quiet ==> Holds(dir.fs, p) && m.loaded == FromUnit(p.inode) && !m.dropIns
      ensures quiet && Sure(undoing) && Holds(dir.fs, p) && m.loaded == FromUnit(p.inode) && !m.dropIns ==> ok
    {
      asked := m;
      ok := dir.Require(p, undoing);
      if !ok { return; }
      var properties := QueryUnitProperties(undoing);
      asked := m;
      if properties.None? || !ResolvesToUnit(properties.value) { return false, asked; }
      ok := dir.Require(p, undoing);
    }

    method RequireUninstalled() returns (ok: bool)
      requires Valid()
      modifies this, dir
      ensures Valid() && Looked()
      ensures ok ==> Missing(Properties(m.loaded, m.dropIns, m.enabled, m.active)) && m.loaded == View(dir.fs, m)
      ensures smooth ==> (ok <==> Missing(Properties(m.loaded, m.dropIns, m.enabled, m.active)) && m.loaded == View(dir.fs, m))
    {
      var properties := QueryUnitProperties(false);
      ok := properties.Some? && Missing(properties.value);
    }

    /** Enabled and active again as before, by commands that only add. */
    method RestoreServiceState(previous: Manager)
      requires Valid()
      modifies this, dir
      ensures Valid() && Untouched(old(dir.fs), dir.fs) && (quiet ==> dir.fs == old(dir.fs))
      ensures quiet && reliable ==>
                m == old(m).(enabled := if previous.enabled == Enabled then Enabled else old(m).enabled,
                             active := if previous.active == Active then Active else old(m).active)
    {
      if previous.enabled == Enabled {
        var ok := Enable(true);
      }
      if previous.active == Active {
        var ok := Start(true);
      }
    }

    /** The state a failed disable may have left: the same unit, perhaps less enabled, perhaps stopped. */
    ghost predicate Weakened(was: Manager, now: Manager) {
      && now == was.(enabled := now.enabled, active := now.active)
      && (now.enabled == was.enabled || now.enabled == Disabled)
      && (was.active == Inactive ==> now.active == Inactive)
    }

    /** A service state that can be restored: plainly on or off, loaded from exactly this file. */
    ghost predicate Loaded(was: Manager, p: Publication) {
      Plain(was) && was.loaded == FromUnit(p.inode)
    }

    method RollbackFailedDisable(p: Publication, previous: Manager)
      requires Valid() && p.name == Unit
      modifies this, dir
      ensures Valid() && Untouched(old(dir.fs), dir.fs) && (quiet ==> dir.fs == old(dir.fs))
      ensures quiet && reliable && Loaded(previous, p) && Weakened(previous, old(m)) && Holds(old(dir.fs), p) ==> m == previous
    {
      var ok, asked := RequirePublishedUnitLoaded(p, true);
      if !ok { return; }
      RestoreServiceState(previous);
    }

    method RollbackUninstall(held: Publication, previous: Manager)
      requires Valid() && held.name.Quarantine?
      modifies this, dir
      ensures Valid() && dir.fs.erased == old(dir.fs).erased && dir.fs.replaced == old(dir.fs).replaced
      ensures dir.fs.made == old(dir.fs).made && PrivateBut(old(dir.fs), dir.fs, {held.name})
      ensures quiet && reliable && Holds(old(dir.fs), held) && Unit !in old(dir.fs).entries && Loaded(previous, held)
              && Weakened(previous, old(m).(loaded := previous.loaded)) ==>
                dir.fs == Moved(old(dir.fs), held.name, Unit) && m == previous
    {
      var restored, synced := dir.Restore(held);
      if restored.None? { return; }
      var ok := DaemonReload(true);
      if !ok { return; }
      ghost var asked;
      ok, asked := RequirePublishedUnitLoaded(restored.value, true);
      if !ok { return; }
      RestoreServiceState(previous);
    }

    ghost predicate Gone()
      reads this, dir
    {
      Uninstalled(dir.fs, m)
    }

    /** From the quarantine on: reload, make sure the service is gone, remove the file; or put everything back. */
    method RemoveHeld(held: Publication, previous: Manager) returns (outcome: Outcome)
      requires Valid() && held.name.Quarantine?
      modifies this, dir
      ensures Valid() && dir.fs.replaced == old(dir.fs).replaced && dir.fs.made == old(dir.fs).made
      ensures ErasedOnly(old(dir.fs), dir.fs, {}, {held.inode}, held.data)
      ensures outcome == Error ==> dir.fs.erased == old(dir.fs).erased
      ensures quiet && Unit !in old(dir.fs).entries && outcome != Error ==> Gone()
      ensures quiet && reliable && Holds(old(dir.fs), held) && Unit !in old(dir.fs).entries && Loaded(previous, held)
              && Weakened(previous, old(m)) && outcome == Error ==>
                dir.fs == Moved(old(dir.fs), held.name, Unit) && m == previous
      ensures smooth && Holds(old(dir.fs), held) && Unit !in old(dir.fs).entries && old(m).active == Inactive
              && old(m).enabled == Disabled ==>
                outcome == if old(m).shadow || old(m).dropIns then Error else Done
    {
      var ok := DaemonReload(false);
      if !ok {
        RollbackUninstall(held, previous);
        return Error;
      }
      ok := RequireUninstalled();
      if !ok {
        RollbackUninstall(held, previous);
        return Error;
      }
      var removed, synced := dir.Remove(held, false);
      if !removed {
        RollbackUninstall(held, previous);
        return Error;
      }
      outcome := if synced then Done else SyncFailed;
    }

    /** Disables, stops and quarantines the verified unit, then removes it. */
    method RemoveVerified(p: Publication, previous: Manager) returns (outcome: Outcome)
      requires Valid() && p.name == Unit
      modifies this, dir
      ensures Valid() && dir.fs.replaced == old(dir.fs).replaced && dir.fs.made == old(dir.fs).made
      ensures ErasedOnly(old(dir.fs), dir.fs, {}, {p.inode}, p.data)
      ensures quiet && outcome != Error ==> Gone()
      ensures quiet && reliable && outcome == Error && Loaded(previous, p) && previous == old(m) && Holds(old(dir.fs), p) ==>
                dir.fs == old(dir.fs) && m == old(m)
      ensures smooth && Holds(old(dir.fs), p) ==> outcome == if old(m).shadow || old(m).dropIns then Error else Done
    {
      var ok := DisableNow(false);
      if !ok {
        RollbackFailedDisable(p, previous);
        return Error;
      }
      ok := dir.Require(p, false);
      if !ok {
        RollbackFailedDisable(p, previous);
        return Error;
      }
      var held, took, at := dir.Quarantine(p, false);
      if held.None? {
        RollbackFailedDisable(p, previous);
        return Error;
      }
      outcome := RemoveHeld(held.value, previous);
      if quiet && reliable && outcome == Error && Holds(old(dir.fs), p) {
        assert Moved(Moved(old(dir.fs), Unit, at), at, Unit).entries == old(dir.fs).entries;
      }
    }

    /** Whether the unit and the manager's view of it are ones this program may remove. */
    method Admit() returns (unit: Captured, previous: Option<Manager>)
      requires Valid()
      modifies this, dir
      ensures Valid() && Looked()
      ensures unit.Nothing? && quiet ==> Unit !in dir.fs.entries
      ensures previous.Some? ==>
                && unit.File? && unit.publication.name == Unit && UnitText.HasSystemdUnitMarker(unit.publication.data)
                && UnitText.InstallsOnlyInto(UnitText.SplitLines(unit.publication.data), system)
                && Holds(dir.fs, unit.publication) && Plain(previous.value)
      ensures previous.Some? && quiet ==> previous.value == m && Loaded(m, unit.publication)
      ensures smooth ==> (unit.Nothing? <==> Unit !in dir.fs.entries) && (previous.Some? <==> Manageable(dir.fs, m, system))
    {
      previous := None;
      unit := dir.Capture();
      if !unit.File? || !UnitText.HasSystemdUnitMarker(unit.publication.data) { return; }
      var unsafe := UnitText.ValidateManagedSystemdInstallSection(unit.publication.data, system);
      if unsafe.Some? { return; }
      var properties := QueryUnitProperties(false);
      if properties.None? || !ResolvesToUnit(properties.value) { return; }
      var topology: bool := *;
      if !topology && !smooth { return; }
      var p := properties.value;
      if (p.active != Active && p.active != Inactive) || (p.enabled != Enabled && p.enabled != Disabled) { return; }
      var before := m;
      var ok := dir.Require(unit.publication, false);
      if !ok { return; }
      previous := Some(before);
    }

    /**
     * Uninstalling. Whatever others do meanwhile, the only file ever unlinked is the captured one, which carried the
     * ownership marker, and only by a private name under which it was read once more, as captured; nothing is
     * replaced. With nobody else at work and undoing reliable, an error leaves the very file, its content and the
     * whole service state as they were; a failed sync leaves the service fully uninstalled. Where nothing fails at
     * all, exactly a clear world and a manageable unit without a shadow end uninstalled.
     */
    method Uninstall() returns (outcome: Outcome, unit: Captured)
      requires Valid()
      modifies this, dir
      ensures Valid() && dir.fs.replaced == old(dir.fs).replaced && dir.fs.made == old(dir.fs).made
      ensures ErasedCaptured(old(dir.fs), dir.fs, unit)
      ensures dir.fs.erased != old(dir.fs).erased ==> unit.File? && UnitText.HasSystemdUnitMarker(unit.publication.data)
      ensures quiet && outcome != Error ==> Gone()
      ensures quiet && reliable && outcome == Error ==> dir.fs == old(dir.fs) && m == old(m)
      ensures smooth ==>
                (outcome == Done <==>
                   Clear(old(dir.fs), old(m)) || (Manageable(old(dir.fs), old(m), system) && !old(m).shadow))
    {
      var previous;
      unit, previous := Admit();
      if unit.Nothing? {
        var ok := RequireUninstalled();
        return if ok then Done else Error, unit;
      }
      if previous.None? { return Error, unit; }
      outcome := RemoveVerified(unit.publication, previous.value);
    }

    // -------------------------------------------------------------- install

    /** Lets the service's own start-up or exit take place. */
    method Settle()
      requires Valid()
      modifies this`m
      ensures Valid() && m == old(m).(active := m.active)
      ensures smooth ==> m == old(m)
    {
      if m.active != Inactive && !smooth {
        var next: Activity := *;
        m := m.(active := next);
      }
    }

    /** What the status command sees of an installed service: its activity, if nothing is wrong. */
    method Status() returns (activity: Option<Activity>)
      requires Valid()
      modifies this, dir
      ensures Valid() && Untouched(old(dir.fs), dir.fs)
      ensures quiet ==> dir.fs == old(dir.fs) && m == old(m).(active := m.active)
      ensures quiet && activity.Some? ==> activity.value == m.active
      ensures smooth ==> m == old(m)
      ensures smooth && Unit in dir.fs.entries && dir.fs.entries[Unit] in dir.fs.bytes && m.loaded == View(dir.fs, m) && !m.dropIns ==>
                (activity.Some? <==> UnitText.HasSystemdUnitMarker(dir.fs.bytes[dir.fs.entries[Unit]]))
    {
      Settle();
      var unit := dir.Capture();
      var p := QueryUnitProperties(false);
      if p.None? || !unit.File? || !UnitText.HasSystemdUnitMarker(unit.publication.data) { return None; }
      if !Missing(p.value) && !ResolvesToUnit(p.value) { return None; }
      activity := Some(p.value.active);
    }

    /** At most ten observations, each between two checks of the file; success needs the last three to be active. */
    method WaitForActive(p: Publication) returns (ok: bool, seen: seq<Activity>)
      requires Valid() && p.name == Unit
      modifies this, dir
      ensures Valid() && Untouched(old(dir.fs), dir.fs)
      ensures quiet ==> dir.fs == old(dir.fs) && m == old(m).(active := m.active)
      ensures |seen| <= 10
      ensures ok ==> |seen| >= 3 && forall i | |seen| - 3 <= i < |seen| :: seen[i] == Active
      ensures ok && quiet ==> m.active == Active
      ensures smooth && Holds(old(dir.fs), p) && old(m).loaded == FromUnit(p.inode) && !old(m).dropIns && old(m).active == Active ==>
                (ok <==> UnitText.HasSystemdUnitMarker(p.data))
      ensures forall i | 0 <= i < |seen| - 1 :: seen[i] == Active || seen[i] == Activating || seen[i] == Reloading
    {
      seen := [];
      var stable := 0;
      for attempt := 0 to 10
        invariant Valid() && Untouched(old(dir.fs), dir.fs)
        invariant quiet ==> dir.fs == old(dir.fs) && m == old(m).(active := m.active)
        invariant |seen| == attempt && stable <= |seen| && stable < 3
        invariant forall i | |seen| - stable <= i < |seen| :: seen[i] == Active
        invariant forall i | 0 <= i < |seen| :: seen[i] == Active || seen[i] == Activating || seen[i] == Reloading
        invariant smooth ==> m == old(m) && (m.active == Active ==> stable == attempt)
        invariant smooth && attempt > 0 && Holds(old(dir.fs), p) && m.loaded == FromUnit(p.inode) && !m.dropIns ==>
                    UnitText.HasSystemdUnitMarker(p.data)
      {
        var owned := dir.Require(p, false);
        if !owned { return false, seen; }
        var activity := Status();
        if activity.None? { return false, seen; }
        owned := dir.Require(p, false);
        if !owned { return false, seen; }
        seen := seen + [activity.value];
        if activity.value == Active {
          stable := stable + 1;
          if stable == 3 { return true, seen; }
        } else {
          stable := 0;
          if activity.value != Activating && activity.value != Reloading { return false, seen; }
        }
      }
      ok := false;
    }

    /** Stops what was started and takes the published file away again, as long as both are still ours. */
    method RollbackInstall(p: Publication, startAttempted: bool, enableAttempted: bool)
      requires Valid() && p.name == Unit && (enableAttempted ==> startAttempted)
      modifies this, dir
      ensures Valid() && dir.fs.replaced == old(dir.fs).replaced && dir.fs.made == old(dir.fs).made
      ensures ErasedOnly(old(dir.fs), dir.fs, {}, {p.inode}, p.data)
      ensures quiet && reliable && Holds(old(dir.fs), p) && !old(m).shadow
              && (startAttempted ==> old(m).loaded == FromUnit(p.inode) && !old(m).dropIns) ==>
                && dir.fs.entries == old(dir.fs).entries - {Unit} && dir.fs.bytes == old(dir.fs).bytes
                && m.loaded == Absent && (enableAttempted ==> m.enabled == Disabled) && (!enableAttempted ==> m.enabled == old(m).enabled)
                && (if startAttempted then !Running(m.active) else m.active == old(m).active)
    {
      var ok := true;
      if startAttempted {
        ghost var asked;
        ok, asked := RequirePublishedUnitLoaded(p, true);
        if !ok { return; }
      }
      if enableAttempted {
        ok := DisableNow(true);
        if !ok { return; }
      } else if startAttempted {
        ok := Stop(true);
        if !ok { return; }
      }
      if startAttempted {
        ok := dir.Require(p, true);
        if !ok { return; }
      }
      TakeAway(p);
    }

    method TakeAway(p: Publication)
      requires Valid() && p.name == Unit
      modifies this, dir
      ensures Valid() && dir.fs.replaced == old(dir.fs).replaced && dir.fs.made == old(dir.fs).made
      ensures ErasedOnly(old(dir.fs), dir.fs, {}, {p.inode}, p.data)
      ensures quiet && reliable && Holds(old(dir.fs), p) && !old(m).shadow ==>
                && dir.fs.entries == old(dir.fs).entries - {Unit} && dir.fs.bytes == old(dir.fs).bytes
                && m == old(m).(loaded := Absent)
    {
      var held, took, at := dir.Quarantine(p, true);
      if held.None? { return; }
      var removed, synced := dir.Remove(held.value, true);
      if quiet && removed {
        assert Moved(old(dir.fs), Unit, at).entries - {at} == old(dir.fs).entries - {Unit};
      }
      var ok := DaemonReload(true);
    }

    ghost predicate Off()
      reads this, dir
    {
      NotInstalled(dir.fs, m)
    }

    /** Where an install starts from: the manager knows nothing of the service. */
    ghost predicate Fresh(was: Manager) {
      was.loaded == Absent && !was.shadow && !was.dropIns && was.active == Inactive && was.enabled != Enabled
    }

    /** Up to the verified, loaded unit; on failure the file is taken away again. */
    method LoadPublished(p: Publication) returns (ok: bool)
      requires Valid() && p.name == Unit
      modifies this, dir
      ensures Valid() && dir.fs.replaced == old(dir.fs).replaced && dir.fs.made == old(dir.fs).made
      ensures ErasedOnly(old(dir.fs), dir.fs, {}, {p.inode}, p.data)
      ensures quiet && ok ==> dir.fs == old(dir.fs) && m == old(m).(loaded := FromUnit(p.inode)) && !m.dropIns && Holds(dir.fs, p)
      ensures quiet && reliable && !ok && Holds(old(dir.fs), p) && Fresh(old(m)) ==>
                dir.fs.entries == old(dir.fs).entries - {Unit} && dir.fs.bytes == old(dir.fs).bytes && Off()
      ensures smooth && Holds(old(dir.fs), p) && !old(m).dropIns ==> ok
    {
      ok := DaemonReload(false);
      if ok {
        ghost var asked;
        ok, asked := RequirePublishedUnitLoaded(p, false);
        if ok { ok := dir.Require(p, false); }
      }
      if !ok {
        RollbackInstall(p, false, false);
      }
    }

    /** Starts, waits, enables and commits; on failure everything is undone as far as it was attempted. */
    method StartLoaded(p: Publication, adoption: Adoption) returns (ok: bool, settled: Adoption)
      requires Valid() && p.name == Unit && (adoption == NotBegun || adoption == Pending)
      modifies this, dir
      ensures Valid() && dir.fs.replaced == old(dir.fs).replaced && dir.fs.made == old(dir.fs).made
      ensures ErasedOnly(old(dir.fs), dir.fs, {}, {p.inode}, p.data)
      ensures settled == if ok && adoption == Pending then Committed else adoption
      ensures quiet && ok ==> dir.fs == old(dir.fs) && m == old(m).(enabled := Enabled, active := Active)
      ensures quiet && reliable && !ok && Holds(old(dir.fs), p) && old(m).loaded == FromUnit(p.inode)
              && Fresh(old(m).(loaded := Absent)) ==>
                dir.fs.entries == old(dir.fs).entries - {Unit} && dir.fs.bytes == old(dir.fs).bytes && Off()
      ensures smooth && Holds(old(dir.fs), p) && old(m).loaded == FromUnit(p.inode) && !old(m).dropIns ==>
                (ok <==> UnitText.HasSystemdUnitMarker(p.data))
    {
      settled := adoption;
      if adoption == Pending {
        var unlockFails := Fails(false);
        if unlockFails {
          RollbackInstall(p, false, false);
          return false, settled;
        }
      }
      ok := Start(false);
      if ok {
        var seen;
        ok, seen := WaitForActive(p);
        if ok { ok := dir.Require(p, false); }
      }
      if !ok {
        RollbackInstall(p, true, false);
        return;
      }
      ok := Enable(false);
      if ok && adoption == Pending {
        var commitFails := Fails(false);
        ok := !commitFails;
      }
      if !ok {
        RollbackInstall(p, true, true);
        return;
      }
      if adoption == Pending { settled := Committed; }
    }

    /** Checks that nothing is there, publishes, loads and starts. */
    method InstallUnit(rendered: Option<string>, adoption: Adoption) returns (ok: bool, settled: Adoption)
      requires Valid() && (adoption == NotBegun || adoption == Pending)
      modifies this, dir
      ensures Valid() && dir.fs.replaced == old(dir.fs).replaced && old(dir.fs).made <= dir.fs.made
      ensures ErasedPublished(old(dir.fs), dir.fs, rendered)
      ensures settled == if ok && adoption == Pending then Committed else adoption
      ensures ok ==> rendered.Some?
      ensures quiet && ok ==> Installed(dir.fs, m, rendered.value)
      ensures quiet && reliable && !ok && Unit !in old(dir.fs).entries && Fresh(old(m)) ==>
                Visible(dir.fs) == Visible(old(dir.fs)) && SameBytes(old(dir.fs), dir.fs) && Off()
      ensures smooth && Unit !in old(dir.fs).entries && !old(m).dropIns ==>
                (ok <==> rendered.Some? && UnitText.HasSystemdUnitMarker(rendered.value))
    {
      ok, settled := false, adoption;
      if rendered.None? { return; }
      var publication, published, temp := dir.Publish(rendered.value);
      UnitVisible(old(dir.fs), dir.fs);
      if publication.None? { return; }
      ghost var mid := dir.fs;
      var p := publication.value;
      if !published {
        RollbackInstall(p, false, false);
      } else {
        ok := LoadPublished(p);
        if ok {
          ok, settled := StartLoaded(p, adoption);
        }
      }
      if quiet && reliable && !ok && Unit !in old(dir.fs).entries && Fresh(old(m)) {
        UndonePublication(old(dir.fs), mid, dir.fs, p.inode);
      }
    }

    /**
     * Installing. Whatever others do meanwhile, the only files ever unlinked are those this call created, by their
     * temporary name or by a private name under which they were read once more, as rendered; nothing is replaced.
     * With nobody else at work and undoing reliable, an error leaves every name and content as they were, the service
     * not installed, not enabled and not running (or, if something was there before, just as it was), and an
     * uncommitted adoption rolled back; success leaves the rendered unit enabled and active. Where nothing fails at
     * all, it succeeds exactly in a clear world and for a marked unit.
     */
    method Install(rendered: Option<string>, managed: bool) returns (outcome: Outcome, adoption: Adoption)
      requires Valid()
      modifies this, dir
      ensures Valid() && dir.fs.replaced == old(dir.fs).replaced
      ensures ErasedPublished(old(dir.fs), dir.fs, rendered)
      ensures outcome != SyncFailed
      ensures outcome == Done ==> adoption == if managed then Committed else NotBegun
      ensures outcome == Error ==> adoption == NotBegun || adoption == RolledBack || (!reliable && adoption == Stuck)
      ensures quiet && outcome == Done ==> rendered.Some? && Installed(dir.fs, m, rendered.value)
      ensures quiet && reliable && outcome == Error ==>
                Visible(dir.fs) == Visible(old(dir.fs)) && SameBytes(old(dir.fs), dir.fs) && (m == old(m) || Off())
      ensures smooth ==>
                (outcome == Done <==>
                   Clear(old(dir.fs), old(m)) && rendered.Some? && UnitText.HasSystemdUnitMarker(rendered.value))
    {
      adoption := NotBegun;
      var unit := dir.Capture();
      if !unit.Nothing? { return Error, adoption; }
      var free := RequireUninstalled();
      if !free { return Error, adoption; }
      if managed {
        var fails := Fails(false);
        if fails { return Error, adoption; }
        adoption := Pending;
      }
      var ok;
      ok, adoption := InstallUnit(rendered, adoption);
      if !ok && adoption == Pending {
        var fails := Fails(true);
        adoption := if fails then Stuck else RolledBack;
      }
      outcome := if ok then Done else Error;
    }
  }

  /** The world a transaction leaves behind. */
  datatype World = World(fs: Fs, m: Manager)

  /** Uninstalling from any world, stated on the worlds before and after. */
  method UninstallFrom(before: World, ids: nat, system: bool, quiet: bool, reliable: bool, smooth: bool)
    returns (outcome: Outcome, unit: Captured, after: World)
    requires Sound(before.fs) && Numbered(before.fs, ids) && (smooth ==> quiet && reliable)
    ensures after.fs.replaced == before.fs.replaced && after.fs.made == before.fs.made
    ensures ErasedCaptured(before.fs, after.fs, unit)
    ensures after.fs.erased != before.fs.erased ==> unit.File? && UnitText.HasSystemdUnitMarker(unit.publication.data)
    ensures quiet && outcome != Error ==> Uninstalled(after.fs, after.m)
    ensures quiet && reliable && outcome == Error ==> after == before
    ensures smooth ==>
              (outcome == Done <==> Clear(before.fs, before.m) || (Manageable(before.fs, before.m, system) && !before.m.shadow))
  {
    var dir := new Directory(before.fs, ids, quiet, reliable, smooth);
    var service := new Systemd(dir, before.m, system);
    outcome, unit := service.Uninstall();
    after := World(dir.fs, service.m);
  }

  /** Installing into any world, stated on the worlds before and after. */
  method InstallInto(before: World, ids: nat, system: bool, rendered: Option<string>, managed: bool,
                     quiet: bool, reliable: bool, smooth: bool)
    returns (outcome: Outcome, adoption: Adoption, after: World)
    requires Sound(before.fs) && Numbered(before.fs, ids) && (smooth ==> quiet && reliable)
    ensures after.fs.replaced == before.fs.replaced
    ensures ErasedPublished(before.fs, after.fs, rendered)
    ensures outcome == Done ==> adoption == if managed then Committed else NotBegun
    ensures outcome != Done ==> adoption == NotBegun || adoption == RolledBack || (!reliable && adoption == Stuck)
    ensures quiet && outcome == Done ==> rendered.Some? && Installed(after.fs, after.m, rendered.value)
    ensures quiet && reliable && outcome != Done ==>
              && Visible(after.fs) == Visible(before.fs) && SameBytes(before.fs, after.fs)
              && (after.m == before.m || NotInstalled(after.fs, after.m))
    ensures smooth ==>
              (outcome == Done <==>
                 Clear(before.fs, before.m) && rendered.Some? && UnitText.HasSystemdUnitMarker(rendered.value))
  {
    var dir := new Directory(before.fs, ids, quiet, reliable, smooth);
    var service := new Systemd(dir, before.m, system);
    outcome, adoption := service.Install(rendered, managed);
    after := World(dir.fs, service.m);
  }
}
