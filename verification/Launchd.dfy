/** Installing and uninstalling the launchd service over several candidate domains. */
module Launchd {
  import opened Options
  import opened UnitFiles
  import UnitText

  datatype JobPath = ManagedPlist | OtherPlist
  datatype Job = Job(path: JobPath, running: bool)

  /** One answer of the job listing for one domain. */
  datatype Listing = Listed(job: Job) | NotFound | NoDomain | Broken

  datatype Query = QueryFailed | NotLoaded | LoadedIn(domain: string, job: Job)

  /** The commands issued, with what a listing showed and whether an unload was accepted. */
  datatype Command = Printed(domain: string, shown: Listing) | Bootstrapped(domain: string) | BootedOut(domain: string, accepted: bool)

  /** An accepted unload takes effect before the command returns, at some time, or only after the transaction. */
  datatype Unloading = Prompt | Eventual | Late

  type Jobs = map<string, Job>

  const READINESS_ATTEMPTS := 10
  const READINESS_STABLE := 3

  predicate LoadedNowhere(jobs: Jobs, domains: seq<string>) {
    forall k | 0 <= k < |domains| :: domains[k] !in jobs
  }

  predicate LoadedOnlyIn(jobs: Jobs, domains: seq<string>, domain: string) {
    domain in domains && domain in jobs && forall k | 0 <= k < |domains| && domains[k] in jobs :: domains[k] == domain
  }

  /** The job is loaded in at most one candidate domain. */
  ghost predicate AtMostOnce(jobs: Jobs, domains: seq<string>) {
    forall j, k | 0 <= j < |domains| && 0 <= k < |domains| && domains[j] in jobs && domains[k] in jobs :: domains[j] == domains[k]
  }

  predicate NoRepeats(domains: seq<string>) {
    forall j, k | 0 <= j < k < |domains| :: domains[j] != domains[k]
  }

  /** The same jobs from the same files; whether they run right now is left open. */
  ghost predicate SameJobs(s: Jobs, t: Jobs) {
    s.Keys == t.Keys && forall d | d in s :: s[d].path == t[d].path
  }

  /** A listing that did not show the job in the domain. */
  predicate AbsentFrom(c: Command, domain: string) {
    c.Printed? && c.domain == domain && (c.shown == NotFound || c.shown == NoDomain)
  }

  /** No bootstrap from position `from` on. */
  predicate NoBootstrap(log: seq<Command>, from: nat) {
    forall i | from <= i < |log| :: !log[i].Bootstrapped?
  }

  /**
   * From position `from` on there is at most one bootstrap; it goes to `domain`, right after a listing that showed
   * the job in no candidate domain.
   */
  ghost predicate Guarded(log: seq<Command>, from: nat, domains: seq<string>, domain: string) {
    forall i | from <= i < |log| && log[i].Bootstrapped? ::
      && log[i].domain == domain && from + |domains| <= i
      && (forall k | 0 <= k < |domains| :: AbsentFrom(log[i - |domains| + k], domains[k]))
      && NoBootstrap(log, i + 1)
  }

  /** An unload was asked for from position `from` on. */
  predicate Unloads(log: seq<Command>, from: nat) {
    exists i | from <= i < |log| :: log[i].BootedOut?
  }

  predicate UnloadAccepted(log: seq<Command>, from: nat) {
    exists i | from <= i < |log| :: log[i].BootedOut? && log[i].accepted
  }

  /** Where an unload is asked for, a listing since `from` showed a job of the managed plist. */
  predicate UnloadsManaged(log: seq<Command>, from: nat) {
    forall i | from <= i < |log| && log[i].BootedOut? :: ManagedShown(log, from, i)
  }

  predicate ManagedShown(log: seq<Command>, from: nat, to: nat) {
    exists j | from <= j < to <= |log| :: log[j].Printed? && log[j].shown.Listed? && log[j].shown.job.path == ManagedPlist
  }

  /** The jobs once what is pending has been unloaded. */
  function Left(jobs: Jobs, pending: set<string>): Jobs {
    if pending == {} then jobs else jobs - pending
  }

  /** Nothing happened but that pending unloads may have taken effect. */
  ghost predicate Waited(jobs: Jobs, pending: set<string>, now: Jobs, left: set<string>) {
    (now == jobs && left == pending) || (now == Left(jobs, pending) && left == {})
  }

  function Marker(): string { "<!-- Managed by MintClaw " + "mintclaw-node lifecycle v1 -->" }

  predicate HasLaunchdPlistMarker(data: string) {
    Marker() in UnitText.SplitLines(data)
  }

  /** A managed plist, and a job that is loaded at most once and from it alone. */
  ghost predicate Removable(fs: Fs, jobs: Jobs, missing: set<string>, domains: seq<string>) {
    && Unit in fs.entries && fs.entries[Unit] in fs.bytes && HasLaunchdPlistMarker(fs.bytes[fs.entries[Unit]])
    && AtMostOnce(jobs, domains) && Existing(missing, domains)
    && forall k | 0 <= k < |domains| && domains[k] in jobs :: jobs[domains[k]].path == ManagedPlist
  }

  /** Some candidate domain exists. */
  ghost predicate Existing(missing: set<string>, domains: seq<string>) {
    exists k :: 0 <= k < |domains| && domains[k] !in missing
  }

  /** No plist, and the job in no candidate domain. */
  ghost predicate Clear(fs: Fs, jobs: Jobs, missing: set<string>, domains: seq<string>) {
    Unit !in fs.entries && LoadedNowhere(jobs, domains) && Existing(missing, domains)
  }

  class Launchd {
    const dir: Directory
    const quiet: bool
    const reliable: bool
    /** Nothing fails, nothing left open here refuses, and what is started keeps running. */
    const smooth: bool
    const unloading: Unloading
    const domains: seq<string>
    /** Candidate domains that do not exist at present. */
    var missing: set<string>
    var jobs: Jobs
    /** Where an unload has been accepted that has not taken effect. */
    var pending: set<string>
    ghost var log: seq<Command>
    /** Whether the job was ever loaded in two candidate domains at once. */
    ghost var twice: bool

    ghost predicate Valid()
      reads this, dir
    {
      && dir.Valid() && dir.quiet == quiet && dir.reliable == reliable && dir.smooth == smooth
      && NoRepeats(domains) && (forall d | d in jobs :: d !in missing) && (forall d | d in pending :: d in jobs && d in domains)
    }

    constructor (dir: Directory, domains: seq<string>, jobs: Jobs, missing: set<string>, unloading: Unloading)
      requires dir.Valid() && NoRepeats(domains) && forall d | d in jobs :: d !in missing
      ensures Valid() && this.dir == dir && this.domains == domains && this.jobs == jobs && this.missing == missing
      ensures this.unloading == unloading && pending == {} && !twice && log == []
    {
      this.dir, this.domains, this.unloading := dir, domains, unloading;
      this.quiet, this.reliable, this.smooth := dir.quiet, dir.reliable, dir.smooth;
      this.jobs, this.missing, pending, log, twice := jobs, missing, {}, [], false;
    }

    /** Nobody else is at work and no unload is pending. */
    ghost predicate Settled()
      reads this`pending
    {
      quiet && pending == {}
    }

    /** What will be loaded once accepted unloads have taken effect. */
    ghost function Eventually(): Jobs
      reads this`jobs, this`pending
    {
      Left(jobs, pending)
    }

    /** Time passes, and any other process may have run. */
    method Foreign()
      requires Valid()
      modifies this`jobs, this`pending, this`missing, this`twice, dir`fs
      ensures Valid() && Untouched(old(dir.fs), dir.fs)
      ensures quiet ==> dir.fs == old(dir.fs) && missing == old(missing) && twice == old(twice)
      ensures quiet ==> Waited(old(jobs), old(pending), jobs, pending)
      ensures quiet && unloading == Late ==> jobs == old(jobs) && pending == old(pending)
    {
      dir.Foreign();
      if quiet {
        var passed: bool := *;
        if passed && pending != {} && unloading != Late { jobs, pending := jobs - pending, {}; }
      } else {
        missing := *;
        var theirs: Jobs, still: set<string> := *, *;
        jobs := map d | d in theirs && d !in missing :: theirs[d];
        pending := set d | d in still && d in jobs && d in domains;
        twice := twice || !AtMostOnce(jobs, domains);
      }
    }

    predicate Sure(undoing: bool) { reliable && (undoing || smooth) }

    method Fails(undoing: bool) returns (fails: bool)
      ensures Sure(undoing) ==> !fails
    {
      fails := *;
      if Sure(undoing) { fails := false; }
    }

    /** Nothing changed in a quiet world except that pending unloads may be over; the directory was only looked at. */
    twostate predicate Looked()
      reads this, dir
    {
      && Untouched(old(dir.fs), dir.fs)
      && (quiet ==> dir.fs == old(dir.fs) && missing == old(missing) && twice == old(twice))
      && (quiet ==> Waited(old(jobs), old(pending), jobs, pending))
      && (quiet && unloading == Late ==> jobs == old(jobs) && pending == old(pending))
    }

    method Print(domain: string, undoing: bool) returns (listing: Listing)
      requires Valid()
      modifies this, dir`fs
      ensures Valid() && Looked()
      ensures log == old(log) + [Printed(domain, listing)]
      ensures Sure(undoing) ==> listing != Broken
      ensures quiet && listing != Broken ==>
                listing == if domain in jobs then Listed(jobs[domain]) else if domain in missing then NoDomain else NotFound
    {
      Foreign();
      var fails := Fails(undoing);
      listing :=
        if fails then Broken
        else if domain in jobs then Listed(jobs[domain])
        else if domain in missing then NoDomain
        else NotFound;
      log := log + [Printed(domain, listing)];
    }

    ghost predicate Reachable()
      reads this
    {
      Existing(missing, domains)
    }

    /** A query that does not fail for another reason gives an answer. */
    ghost predicate Answerable()
      reads this
    {
      AtMostOnce(jobs, domains) && NoRepeats(domains) && Reachable()
    }

    /** Lists every candidate domain; fails if any listing does, if two show the job, or if no domain exists. */
    method QueryJob(undoing: bool) returns (q: Query)
      requires Valid()
      modifies this, dir`fs
      ensures Valid() && Looked()
      ensures old(log) <= log && forall i | |old(log)| <= i < |log| :: log[i].Printed?
      ensures q == NotLoaded ==>
                |log| == |old(log)| + |domains| && forall k | 0 <= k < |domains| :: AbsentFrom(log[|old(log)| + k], domains[k])
      ensures q.LoadedIn? ==>
                q.domain in domains && exists i | |old(log)| <= i < |log| :: log[i] == Printed(q.domain, Listed(q.job))
      ensures q.LoadedIn? && q.job.path == ManagedPlist ==> ManagedShown(log, |old(log)|, |log|)
      ensures quiet && q == NotLoaded ==> LoadedNowhere(jobs, domains) && Reachable() && pending == {}
      ensures old(Settled()) && q.LoadedIn? ==> LoadedOnlyIn(jobs, domains, q.domain) && jobs[q.domain] == q.job
      ensures quiet && Sure(undoing) && old(Answerable()) ==> q != QueryFailed
    {
      var found: seq<(string, Job)>, inspected := [], false;
      ghost var before, first := log, 0;
      for k := 0 to |domains|
        invariant Valid() && Looked()
        invariant |log| == |before| + k && before <= log
        invariant forall i | |before| <= i < |log| :: log[i].Printed?
        invariant found == [] ==> forall j | 0 <= j < k :: AbsentFrom(log[|before| + j], domains[j])
        invariant found != [] ==>
                    0 <= first < k && found[0].0 == domains[first] && log[|before| + first] == Printed(found[0].0, Listed(found[0].1))
        invariant quiet ==> (inspected <==> exists j :: 0 <= j < k && domains[j] !in missing)
        invariant quiet && found == [] ==> forall j | 0 <= j < k :: domains[j] !in jobs
        invariant quiet && found != [] ==> domains[first] in old(jobs)
        invariant quiet && AtMostOnce(old(jobs), domains) ==> |found| <= 1
        invariant old(Settled()) && |found| == 1 ==>
                    && found[0].0 in jobs && jobs[found[0].0] == found[0].1
                    && forall j | 0 <= j < k && domains[j] in jobs :: domains[j] == found[0].0
      {
        var listing := Print(domains[k], undoing);
        if listing == Broken { return QueryFailed; }
        if listing.Listed? {
          if found == [] { first := k; }
          found := found + [(domains[k], listing.job)];
        }
        inspected := inspected || listing != NoDomain;
      }
      if |found| > 1 { return QueryFailed; }
      if |found| == 0 {
        return if inspected then NotLoaded else QueryFailed;
      }
      q := LoadedIn(found[0].0, found[0].1);
    }

    /** Loads the job from the managed plist, if it is there; a failure may have loaded it all the same. */
    method Bootstrap(domain: string, undoing: bool) returns (ok: bool)
      requires Valid()
      modifies this, dir`fs
      ensures Valid() && Untouched(old(dir.fs), dir.fs) && log == old(log) + [Bootstrapped(domain)]
      ensures quiet ==> dir.fs == old(dir.fs) && missing == old(missing)
      ensures old(Settled()) ==> pending == {}
      ensures old(Settled()) ==> jobs == old(jobs) || (domain !in old(jobs) && jobs == old(jobs)[domain := Job(ManagedPlist, true)])
      ensures old(Settled()) && ok ==> domain in jobs && domain !in old(jobs)
      ensures old(Settled()) ==> twice == (old(twice) || !AtMostOnce(jobs, domains))
      ensures old(Settled()) && Sure(undoing) && Unit in dir.fs.entries && domain !in missing && domain !in old(jobs) ==> ok
    {
      Foreign();
      log := log + [Bootstrapped(domain)];
      var fails := Fails(undoing);
      var takes: bool := *;
      ok := !fails && Unit in dir.fs.entries && domain !in missing && domain !in jobs;
      if ok || (takes && Unit in dir.fs.entries && domain !in missing && domain !in jobs) {
        jobs := jobs[domain := Job(ManagedPlist, true)];
      }
      twice := twice || !AtMostOnce(jobs, domains);
    }

    /** Unloads the job: at once or later if that is accepted; if not, at once, later or never. */
    method Bootout(domain: string, undoing: bool) returns (ok: bool)
      requires Valid() && domain in domains
      modifies this, dir`fs
      ensures Valid() && Untouched(old(dir.fs), dir.fs) && log == old(log) + [BootedOut(domain, ok)]
      ensures quiet ==> dir.fs == old(dir.fs) && missing == old(missing) && twice == old(twice)
      ensures old(Settled()) ==>
                || (jobs == old(jobs) && pending == {} && (ok ==> domain !in old(jobs)))
                || (jobs == old(jobs) - {domain} && pending == {} && unloading != Late)
                || (jobs == old(jobs) && pending == {domain} && unloading != Prompt)
      ensures Sure(undoing) ==> ok
    {
      Foreign();
      ok := Fails(undoing);
      ok := !ok;
      log := log + [BootedOut(domain, ok)];
      var takes: bool, later: bool := *, *;
      if domain in jobs && (ok || takes) {
        if unloading == Prompt || (unloading == Eventual && !later) {
          jobs, pending := jobs - {domain}, pending - {domain};
        } else {
          pending := pending + {domain};
        }
      }
    }

    // ------------------------------------------------------------- rollback

    /** Loaded from the managed plist in exactly this candidate domain. */
    ghost predicate Restored(domain: string)
      reads this
    {
      LoadedOnlyIn(jobs, domains, domain) && jobs[domain].path == ManagedPlist
    }

    /** A state in which the job can be put back: the plist is in place and the domain exists. */
    ghost predicate Ready(p: Publication, domain: string)
      reads this, dir
    {
      Holds(dir.fs, p) && p.name == Unit && Answerable() && domain in domains && domain !in missing
    }

    /** What bootstrapping into one domain, seen absent from all, may leave. */
    ghost predicate Extends(was: Jobs, domain: string)
      reads this
    {
      jobs == was || (domain !in was && jobs == was[domain := Job(ManagedPlist, true)])
    }

    /** Either nothing was bootstrapped, or the job was seen nowhere, with nothing pending, and bootstrapped here. */
    twostate predicate Restarted(domain: string)
      reads this
    {
      if NoBootstrap(log, |old(log)|) then Waited(old(jobs), old(pending), jobs, pending)
      else pending == {} && LoadedNowhere(Left(old(jobs), old(pending)), domains) && Extends(Left(old(jobs), old(pending)), domain)
    }

    /** Bootstraps only right after a listing that shows the job nowhere. */
    method BootstrapIfAbsent(domain: string) returns (ok: bool)
      requires Valid()
      modifies this, dir`fs
      ensures Valid() && Untouched(old(dir.fs), dir.fs)
      ensures quiet ==> dir.fs == old(dir.fs) && missing == old(missing) && Restarted(domain)
      ensures old(log) <= log && Guarded(log, |old(log)|, domains, domain) && !Unloads(log, |old(log)|)
      ensures ok ==> !NoBootstrap(log, |old(log)|)
      ensures quiet && AtMostOnce(old(jobs), domains) ==> twice == old(twice) && AtMostOnce(jobs, domains)
      ensures (quiet && reliable && old(Answerable()) && Unit in old(dir.fs).entries && domain in domains && domain !in missing
               && (LoadedNowhere(old(jobs), domains) || !NoBootstrap(log, |old(log)|))) ==> ok && Restored(domain)
    {
      var q := QueryJob(true);
      if q != NotLoaded { return false; }
      ghost var listed, before := log, jobs;
      ok := Bootstrap(domain, true);
      GuardedNow(old(log), listed, log, domains, domain);
      assert log[|listed|].Bootstrapped?;
      if quiet { ExtendedOnce(before, jobs, domains, domain); }
    }

    method RestoreLoadedState(p: Publication, domain: string)
      requires Valid() && p.name == Unit
      modifies this, dir`fs, dir`seen
      ensures Valid() && Untouched(old(dir.fs), dir.fs)
      ensures quiet ==> dir.fs == old(dir.fs) && missing == old(missing) && Restarted(domain)
      ensures old(log) <= log && Guarded(log, |old(log)|, domains, domain) && !Unloads(log, |old(log)|)
      ensures quiet && AtMostOnce(old(jobs), domains) ==> twice == old(twice) && AtMostOnce(jobs, domains)
      ensures quiet && reliable && old(Ready(p, domain)) && (LoadedNowhere(old(jobs), domains) || !NoBootstrap(log, |old(log)|)) ==>
                Restored(domain)
    {
      var ok := dir.Require(p, true);
      if !ok { return; }
      ok := BootstrapIfAbsent(domain);
      if !ok { return; }
      ghost var done := log;
      var q := QueryJob(true);
      GuardedStays(done, log, |old(log)|, domains, domain);
    }

    /** A job still loaded is left alone; one that is gone is bootstrapped where it was. */
    method RollbackFailedBootout(p: Publication, domain: string)
      requires Valid() && p.name == Unit
      modifies this, dir`fs, dir`seen
      ensures Valid() && Untouched(old(dir.fs), dir.fs)
      ensures quiet ==> dir.fs == old(dir.fs) && missing == old(missing) && Restarted(domain)
      ensures old(log) <= log && Guarded(log, |old(log)|, domains, domain) && !Unloads(log, |old(log)|)
      ensures quiet && AtMostOnce(old(jobs), domains) ==> twice == old(twice) && AtMostOnce(jobs, domains)
      ensures quiet && reliable && old(Ready(p, domain)) && (LoadedNowhere(old(jobs), domains) || !NoBootstrap(log, |old(log)|)) ==>
                Restored(domain)
    {
      var q := QueryJob(true);
      ghost var asked := log;
      if q != NotLoaded { return; }
      RestoreLoadedState(p, domain);
      GuardedLater(log, |old(log)|, |asked|, domains, domain);
    }

    method RollbackLoadedState(p: Publication, domain: Option<string>)
      requires Valid() && p.name == Unit
      modifies this, dir`fs, dir`seen
      ensures Valid() && Untouched(old(dir.fs), dir.fs) && old(log) <= log && !Unloads(log, |old(log)|)
      ensures domain.None? ==>
                jobs == old(jobs) && pending == old(pending) && missing == old(missing) && log == old(log) && dir.fs == old(dir.fs)
                && twice == old(twice)
      ensures domain.Some? && quiet ==> dir.fs == old(dir.fs) && missing == old(missing) && Restarted(domain.value)
      ensures domain.Some? ==> Guarded(log, |old(log)|, domains, domain.value)
      ensures quiet && AtMostOnce(old(jobs), domains) ==> twice == old(twice) && AtMostOnce(jobs, domains)
      ensures (quiet && reliable && domain.Some? && old(Ready(p, domain.value))
               && (LoadedNowhere(old(jobs), domains) || !NoBootstrap(log, |old(log)|))) ==> Restored(domain.value)
    {
      if domain.Some? {
        RestoreLoadedState(p, domain.value);
      }
    }

    /** Nothing is listed or bootstrapped before the plist is back under the service's name. */
    method RollbackUninstall(held: Publication, domain: Option<string>) returns (ghost restored: bool)
      requires Valid() && held.name.Quarantine?
      modifies this, dir`fs, dir`seen
      ensures Valid() && dir.fs.erased == old(dir.fs).erased && dir.fs.replaced == old(dir.fs).replaced
      ensures dir.fs.made == old(dir.fs).made && old(log) <= log && !Unloads(log, |old(log)|)
      ensures !restored || domain.None? ==> log == old(log)
      ensures restored ==> held.name !in dir.fs.entries
      ensures quiet && restored ==> Holds(dir.fs, held.(name := Unit))
      ensures domain.Some? ==> Guarded(log, |old(log)|, domains, domain.value)
      ensures quiet ==> missing == old(missing)
      ensures domain.None? ==> jobs == old(jobs) && pending == old(pending)
      ensures quiet && domain.Some? ==> Restarted(domain.value)
      ensures quiet && AtMostOnce(old(jobs), domains) ==> twice == old(twice) && AtMostOnce(jobs, domains)
      ensures quiet && reliable && Holds(old(dir.fs), held) && Unit !in old(dir.fs).entries ==>
                restored && dir.fs == Moved(old(dir.fs), held.name, Unit)
      ensures (quiet && reliable && Holds(old(dir.fs), held) && Unit !in old(dir.fs).entries && domain.Some?
               && old(Answerable()) && LoadedNowhere(old(jobs), domains) && domain.value in domains && domain.value !in old(missing)) ==>
                Restored(domain.value)
    {
      var file, synced := dir.Restore(held);
      restored := file.Some?;
      if file.None? { return; }
      RollbackLoadedState(file.value, domain);
    }

    // ------------------------------------------------------------ uninstall

    /** The bootstraps since `from` are those of a rollback into the domain the job was loaded in, if it was. */
    ghost predicate Disciplined(from: nat, domain: Option<string>)
      reads this
    {
      && from <= |log|
      && (domain.Some? ==> Guarded(log, from, domains, domain.value))
      && (domain.None? ==> NoBootstrap(log, from))
    }

    /** How the job stood when it was captured. */
    ghost predicate Stood(domain: Option<string>)
      reads this
    {
      if domain.Some? then Restored(domain.value) && Answerable() else LoadedNowhere(jobs, domains) && Reachable()
    }

    /**
     * How an error leaves the job, where nobody else is at work and undoing is reliable. It is as it was if no unload
     * was asked for or if it was bootstrapped again. If neither, the listing after the unload still showed it: then an
     * unload that had been accepted takes it away all the same, and one that had not may. If unloads take effect at
     * once, the job is as it was.
     */
    twostate predicate Undone(domain: Option<string>)
      reads this
    {
      && (!Unloads(log, |old(log)|) || !NoBootstrap(log, |old(log)|) ==> SameJobs(old(jobs), jobs) && pending == {})
      && (Unloads(log, |old(log)|) && NoBootstrap(log, |old(log)|) ==>
            && domain.Some? && jobs.Keys <= old(jobs).Keys
            && (Eventually() == old(jobs) || Eventually() == old(jobs) - {domain.value})
            && (UnloadAccepted(log, |old(log)|) ==> Eventually() == old(jobs) - {domain.value}))
      && (unloading == Prompt ==> SameJobs(old(jobs), jobs) && pending == {})
    }

    /** Unloads the job if it is loaded and checks the plist once more; on failure the job is loaded again. */
    method Unload(p: Publication, domain: Option<string>) returns (ok: bool)
      requires Valid() && p.name == Unit && (domain.Some? ==> domain.value in domains)
      modifies this, dir`fs, dir`seen
      ensures Valid() && Untouched(old(dir.fs), dir.fs) && old(log) <= log && Disciplined(|old(log)|, domain)
      ensures ok ==> NoBootstrap(log, |old(log)|)
      ensures domain.None? ==> log == old(log)
      ensures quiet ==> dir.fs == old(dir.fs) && missing == old(missing)
      ensures old(Settled()) && old(Stood(domain)) ==> twice == old(twice)
      ensures old(Settled()) && ok && old(Stood(domain)) ==>
                LoadedNowhere(jobs, domains) && jobs == (if domain.Some? then old(jobs) - {domain.value} else old(jobs)) && Reachable()
                && pending == {}
      ensures old(Settled()) && reliable && !ok && old(Stood(domain)) && Holds(old(dir.fs), p) ==> Undone(domain)
      ensures smooth && old(Settled()) && old(Stood(domain)) && Holds(old(dir.fs), p) && unloading != Eventual ==>
                (ok <==> domain.None? || unloading == Prompt)
      ensures smooth && unloading == Late && old(Settled()) && domain.Some? && old(Stood(domain)) ==>
                !ok && UnloadAccepted(log, |old(log)|) && NoBootstrap(log, |old(log)|)
    {
      if domain.Some? {
        ok := UnloadFrom(p, domain.value);
        if !ok { return; }
      }
      ghost var unloaded, mid := log, jobs;
      ok := dir.Require(p, false);
      if !ok {
        RollbackLoadedState(p, domain);
        if domain.Some? {
          GuardedLater(log, |old(log)|, |unloaded|, domains, domain.value);
          if old(Settled()) && reliable && old(Stood(domain)) && Holds(old(dir.fs), p) {
            BackAgain(old(jobs), mid, jobs, domain.value);
          }
        }
      }
    }

    method UnloadFrom(p: Publication, domain: string) returns (ok: bool)
      requires Valid() && p.name == Unit && domain in domains
      modifies this, dir`fs, dir`seen
      ensures Valid() && Untouched(old(dir.fs), dir.fs) && old(log) <= log && Guarded(log, |old(log)|, domains, domain)
      ensures ok ==> NoBootstrap(log, |old(log)|)
      ensures quiet ==> dir.fs == old(dir.fs) && missing == old(missing)
      ensures old(Settled()) && old(Stood(Some(domain))) ==> twice == old(twice)
      ensures old(Settled()) && ok && old(Stood(Some(domain))) ==>
                LoadedNowhere(jobs, domains) && jobs == old(jobs) - {domain} && Reachable() && pending == {}
      ensures old(Settled()) && reliable && !ok && old(Stood(Some(domain))) && Holds(old(dir.fs), p) ==> Undone(Some(domain))
      ensures smooth && old(Settled()) && old(Stood(Some(domain))) && unloading != Eventual ==> (ok <==> unloading == Prompt)
      ensures smooth && unloading == Late && old(Settled()) && old(Stood(Some(domain))) ==>
                UnloadAccepted(log, |old(log)|) && NoBootstrap(log, |old(log)|)
    {
      var accepted := Bootout(domain, false);
      ghost var booted, mid, left := log, jobs, pending;
      ok := CheckUnloaded(p, domain, accepted);
      GuardedLater(log, |old(log)|, |booted|, domains, domain);
      assert log[|old(log)|] == booted[|old(log)|] == BootedOut(domain, accepted);
      if old(Settled()) && reliable && !ok && old(Stood(Some(domain))) && Holds(old(dir.fs), p) {
        if !NoBootstrap(log, |booted|) { BackAgain(old(jobs), Left(mid, left), jobs, domain); }
      }
    }

    /** After asking for an unload: makes sure that the job is gone, or loads it again if it is gone against expectation. */
    method CheckUnloaded(p: Publication, domain: string, accepted: bool) returns (ok: bool)
      requires Valid() && p.name == Unit
      modifies this, dir`fs, dir`seen
      ensures Valid() && Untouched(old(dir.fs), dir.fs)
      ensures old(log) <= log && Guarded(log, |old(log)|, domains, domain) && !Unloads(log, |old(log)|)
      ensures ok ==> accepted && NoBootstrap(log, |old(log)|)
      ensures quiet ==> dir.fs == old(dir.fs) && missing == old(missing) && Restarted(domain)
      ensures quiet && ok ==> LoadedNowhere(jobs, domains) && Reachable() && pending == {}
      ensures quiet && AtMostOnce(old(jobs), domains) ==> twice == old(twice) && AtMostOnce(jobs, domains)
      ensures (quiet && reliable && !ok && old(Ready(p, domain))
               && (LoadedNowhere(old(jobs), domains) || !NoBootstrap(log, |old(log)|))) ==> Restored(domain)
      ensures smooth && accepted && old(Answerable()) && LoadedNowhere(old(jobs), domains) ==> ok
      ensures smooth && accepted && old(Answerable()) ==> NoBootstrap(log, |old(log)|)
      ensures smooth && unloading == Late && !LoadedNowhere(old(jobs), domains) ==> !ok
    {
      if !accepted {
        RollbackFailedBootout(p, domain);
        return false;
      }
      var q := QueryJob(false);
      ghost var asked := log;
      if q == QueryFailed {
        RollbackLoadedState(p, Some(domain));
        GuardedLater(log, |old(log)|, |asked|, domains, domain);
      }
      ok := q == NotLoaded;
    }

    /** Quarantines and removes the plist of an unloaded job; on failure both are put back. */
    method RemoveUnloaded(p: Publication, domain: Option<string>) returns (outcome: Outcome)
      requires Valid() && p.name == Unit
      modifies this, dir
      ensures Valid() && dir.fs.replaced == old(dir.fs).replaced && dir.fs.made == old(dir.fs).made
      ensures ErasedOnly(old(dir.fs), dir.fs, {}, {p.inode}, p.data)
      ensures old(log) <= log && Disciplined(|old(log)|, domain) && !Unloads(log, |old(log)|)
      ensures quiet && LoadedNowhere(old(jobs), domains) ==> twice == old(twice)
      ensures quiet && outcome != Error ==> Unit !in dir.fs.entries && LoadedNowhere(jobs, domains)
      ensures quiet && reliable && outcome == Error && Holds(old(dir.fs), p) && LoadedNowhere(old(jobs), domains) ==>
                dir.fs == old(dir.fs)
      ensures old(Settled()) ==> pending == {}
      ensures old(Settled()) && (domain.None? || outcome != Error) ==> jobs == old(jobs)
      ensures old(Settled()) && domain.Some? && outcome == Error ==> Restarted(domain.value)
      ensures (old(Settled()) && reliable && outcome == Error && Holds(old(dir.fs), p) && LoadedNowhere(old(jobs), domains)
               && domain.Some? && domain.value in domains && domain.value !in old(missing) && old(Reachable())) ==>
                Restored(domain.value)
      ensures smooth && old(Settled()) && Holds(old(dir.fs), p) && LoadedNowhere(old(jobs), domains) && old(Reachable()) ==>
                outcome == Done
      ensures smooth ==> outcome != SyncFailed
    {
      var held, took, at := dir.Quarantine(p, false);
      if held.None? {
        RollbackLoadedState(p, domain);
        return Error;
      }
      outcome := RemoveHeld(held.value, domain);
      if quiet && Holds(old(dir.fs), p) { assert Moved(Moved(old(dir.fs), Unit, at), at, Unit).entries == old(dir.fs).entries; }
    }

    /** From the quarantine on. */
    method RemoveHeld(held: Publication, domain: Option<string>) returns (outcome: Outcome)
      requires Valid() && held.name.Quarantine?
      modifies this, dir`fs, dir`seen
      ensures Valid() && dir.fs.replaced == old(dir.fs).replaced && dir.fs.made == old(dir.fs).made
      ensures ErasedOnly(old(dir.fs), dir.fs, {}, {held.inode}, held.data)
      ensures old(log) <= log && Disciplined(|old(log)|, domain) && !Unloads(log, |old(log)|)
      ensures quiet && LoadedNowhere(old(jobs), domains) ==> twice == old(twice)
      ensures quiet && outcome != Error ==> dir.fs.entries == old(dir.fs).entries - {held.name} && LoadedNowhere(jobs, domains)
      ensures quiet && reliable && outcome == Error && Holds(old(dir.fs), held) && Unit !in old(dir.fs).entries ==>
                dir.fs == Moved(old(dir.fs), held.name, Unit)
      ensures old(Settled()) ==> pending == {}
      ensures old(Settled()) && (domain.None? || outcome != Error) ==> jobs == old(jobs)
      ensures old(Settled()) && domain.Some? && outcome == Error ==> Restarted(domain.value)
      ensures (old(Settled()) && reliable && outcome == Error && Holds(old(dir.fs), held) && Unit !in old(dir.fs).entries
               && LoadedNowhere(old(jobs), domains) && domain.Some? && domain.value in domains && domain.value !in old(missing)
               && old(Reachable())) ==> Restored(domain.value)
      ensures smooth && old(Settled()) && Holds(old(dir.fs), held) && LoadedNowhere(old(jobs), domains) && old(Reachable()) ==>
                outcome == Done
      ensures smooth ==> outcome != SyncFailed
    {
      var q := QueryJob(false);
      ghost var asked := log;
      if q.LoadedIn? {
        ghost var restored := RollbackUninstall(held, None);
        return Error;
      }
      if q == QueryFailed {
        ghost var restored := RollbackUninstall(held, domain);
        outcome := Error;
      } else {
        outcome := RemoveQuarantined(held, domain);
      }
      if domain.Some? { GuardedLater(log, |old(log)|, |asked|, domains, domain.value); }
    }

    method RemoveQuarantined(held: Publication, domain: Option<string>) returns (outcome: Outcome)
      requires Valid() && held.name.Quarantine?
      modifies this, dir`fs, dir`seen
      ensures Valid() && dir.fs.replaced == old(dir.fs).replaced && dir.fs.made == old(dir.fs).made
      ensures ErasedOnly(old(dir.fs), dir.fs, {}, {held.inode}, held.data)
      ensures old(log) <= log && Disciplined(|old(log)|, domain) && !Unloads(log, |old(log)|)
      ensures quiet && LoadedNowhere(old(jobs), domains) ==> twice == old(twice)
      ensures quiet && outcome != Error ==> dir.fs.entries == old(dir.fs).entries - {held.name} && jobs == old(jobs)
      ensures quiet ==> missing == old(missing)
      ensures outcome != Error || domain.None? ==> log == old(log) && jobs == old(jobs) && pending == old(pending)
      ensures quiet && domain.Some? ==> Restarted(domain.value)
      ensures quiet && reliable && outcome == Error && Holds(old(dir.fs), held) && Unit !in old(dir.fs).entries ==>
                dir.fs == Moved(old(dir.fs), held.name, Unit)
      ensures (quiet && reliable && outcome == Error && Holds(old(dir.fs), held) && Unit !in old(dir.fs).entries && domain.Some?
               && old(Answerable()) && LoadedNowhere(old(jobs), domains) && domain.value in domains && domain.value !in old(missing)) ==>
                Restored(domain.value)
      ensures smooth && Holds(old(dir.fs), held) ==> outcome == Done
      ensures smooth ==> outcome != SyncFailed
    {
      var removed, synced := dir.Remove(held, false);
      if !removed {
        ghost var restored := RollbackUninstall(held, domain);
        return Error;
      }
      outcome := if synced then Done else SyncFailed;
    }

    /** Whether plist and job are ones this program may remove, and where the job is loaded. */
    method Admit() returns (plist: Captured, ok: bool, domain: Option<string>)
      requires Valid()
      modifies this, dir`fs, dir`seen
      ensures Valid() && Looked() && old(log) <= log && forall i | |old(log)| <= i < |log| :: log[i].Printed?
      ensures plist.Nothing? ==> !ok
      ensures plist.Nothing? && quiet ==> Unit !in dir.fs.entries
      ensures ok ==> plist.File? && plist.publication.name == Unit && HasLaunchdPlistMarker(plist.publication.data)
      ensures ok ==> Holds(dir.fs, plist.publication) && (domain.Some? ==> domain.value in domains)
      ensures ok && domain.Some? ==>
                exists i | |old(log)| <= i < |log| :: log[i].Printed? && log[i].domain == domain.value && log[i].shown.Listed?
                                                      && log[i].shown.job.path == ManagedPlist
      ensures ok && old(Settled()) ==> Stood(domain)
      ensures smooth && old(Settled()) ==>
                (plist.Nothing? <==> Unit !in dir.fs.entries) && (ok <==> Removable(dir.fs, jobs, missing, domains))
    {
      ok, domain := false, None;
      plist := dir.Capture();
      if !plist.File? || !HasLaunchdPlistMarker(plist.publication.data) { return; }
      var labelled: bool := *;
      if !labelled && !smooth { return; }
      var q := QueryJob(false);
      if q == QueryFailed || (q.LoadedIn? && q.job.path != ManagedPlist) { return; }
      domain := if q.LoadedIn? then Some(q.domain) else None;
      ok := dir.Require(plist.publication, false);
    }

    /**
     * Uninstalling. Whatever others do meanwhile, the only file ever unlinked is the captured one, which carried the
     * ownership marker, and only by a private name under which it was read once more, as captured; nothing is
     * replaced, and the job is bootstrapped at most once, only into the domain it was loaded in, and only right after
     * a listing that showed it in none.
     *
     * With nobody else at work it is never loaded twice, and success, or a sync that failed after the removal, leaves
     * neither plist nor job. With undoing reliable besides, an error leaves the very plist in place, and the job as
     * `Undone` says.
     */
    method Uninstall() returns (outcome: Outcome, plist: Captured, domain: Option<string>)
      requires Valid()
      modifies this, dir
      ensures Valid() && dir.fs.replaced == old(dir.fs).replaced && dir.fs.made == old(dir.fs).made
      ensures ErasedCaptured(old(dir.fs), dir.fs, plist)
      ensures dir.fs.erased != old(dir.fs).erased ==> plist.File? && HasLaunchdPlistMarker(plist.publication.data)
      ensures old(log) <= log && Disciplined(|old(log)|, domain)
      ensures old(Settled()) ==> twice == old(twice)
      ensures old(Settled()) && domain.Some? ==> LoadedOnlyIn(old(jobs), domains, domain.value)
      ensures old(Settled()) && outcome != Error ==> Unit !in dir.fs.entries && LoadedNowhere(jobs, domains) && pending == {}
      ensures old(Settled()) && reliable && outcome == Error ==> dir.fs == old(dir.fs) && Undone(domain)
      ensures smooth ==> outcome != SyncFailed
      ensures smooth && unloading != Eventual && old(Settled()) ==>
                (outcome == Done <==>
                   || Clear(old(dir.fs), old(jobs), old(missing), domains)
                   || (Removable(old(dir.fs), old(jobs), old(missing), domains)
                       && (unloading == Prompt || LoadedNowhere(old(jobs), domains))))
      ensures smooth && unloading == Late && old(Settled()) && Removable(old(dir.fs), old(jobs), old(missing), domains)
              && !LoadedNowhere(old(jobs), domains) ==>
                UnloadAccepted(log, |old(log)|) && NoBootstrap(log, |old(log)|)
    {
      var ok;
      plist, ok, domain := Admit();
      ghost var admitted := log;
      if plist.Nothing? {
        domain := None;
        var q := QueryJob(false);
        return if q == NotLoaded then Done else Error, plist, None;
      }
      if !ok { return Error, plist, None; }
      outcome := Withdraw(plist.publication, domain);
      if domain.Some? { GuardedLater(log, |old(log)|, |admitted|, domains, domain.value); }
    }

    /** The captured state, with nobody else at work and nothing pending. */
    ghost predicate Steady(p: Publication, domain: Option<string>)
      reads this, dir
    {
      Settled() && Stood(domain) && Holds(dir.fs, p)
    }

    method Withdraw(p: Publication, domain: Option<string>) returns (outcome: Outcome)
      requires Valid() && p.name == Unit && (domain.Some? ==> domain.value in domains)
      modifies this, dir
      ensures Valid() && dir.fs.replaced == old(dir.fs).replaced && dir.fs.made == old(dir.fs).made
      ensures ErasedOnly(old(dir.fs), dir.fs, {}, {p.inode}, p.data) && old(log) <= log && Disciplined(|old(log)|, domain)
      ensures old(Steady(p, domain)) ==> twice == old(twice)
      ensures old(Steady(p, domain)) && outcome != Error ==> Unit !in dir.fs.entries && LoadedNowhere(jobs, domains) && pending == {}
      ensures old(Steady(p, domain)) && reliable && outcome == Error ==> dir.fs == old(dir.fs) && Undone(domain)
      ensures smooth && unloading != Eventual && old(Steady(p, domain)) ==> (outcome == Done <==> domain.None? || unloading == Prompt)
      ensures smooth ==> outcome != SyncFailed
      ensures smooth && unloading == Late && old(Steady(p, domain)) && domain.Some? ==>
                UnloadAccepted(log, |old(log)|) && NoBootstrap(log, |old(log)|)
    {
      var ok := Unload(p, domain);
      if !ok { return Error; }
      ghost var unloaded, mid := log, jobs;
      outcome := RemoveUnloaded(p, domain);
      if domain.Some? {
        GuardedLater(log, |old(log)|, |unloaded|, domains, domain.value);
        if old(Steady(p, domain)) && reliable && outcome == Error { BackAgain(old(jobs), mid, jobs, domain.value); }
      }
    }

    // -------------------------------------------------------------- install

    /** The first candidate domain that exists and does not have the job; none may have it. */
    method RequireInstallTargetAvailable() returns (domain: Option<string>)
      requires Valid()
      modifies this, dir`fs
      ensures Valid() && Looked() && old(log) <= log && forall i | |old(log)| <= i < |log| :: log[i].Printed?
      ensures domain.Some? ==> domain.value in domains
      ensures quiet && domain.Some? ==> Available(domain.value) && pending == {}
      ensures smooth && old(Settled()) ==> (domain.Some? <==> LoadedNowhere(jobs, domains) && Reachable())
    {
      domain := None;
      for k := 0 to |domains|
        invariant Valid() && Looked() && old(log) <= log && forall i | |old(log)| <= i < |log| :: log[i].Printed?
        invariant domain.Some? ==> domain.value in domains
        invariant quiet ==> (forall j | 0 <= j < k :: domains[j] !in jobs) && (domain.Some? ==> domain.value !in missing)
        invariant smooth && old(Settled()) ==> (domain.Some? <==> exists j :: 0 <= j < k && domains[j] !in missing)
      {
        var listing := Print(domains[k], false);
        if listing == Broken || listing.Listed? { return None; }
        if listing == NotFound && domain.None? { domain := Some(domains[k]); }
      }
    }

    /** The job runs or not of its own accord. */
    method Settle()
      requires Valid()
      modifies this`jobs
      ensures Valid() && SameJobs(old(jobs), jobs) && (smooth ==> jobs == old(jobs))
    {
      if smooth { return; }
      var running: map<string, bool> := *;
      jobs := map d | d in jobs :: Job(jobs[d].path, d in running && running[d]);
    }

    /** The job runs in this domain and no other, from the plist in place. */
    ghost predicate UpIn(p: Publication, domain: string)
      reads this, dir
    {
      Restored(domain) && jobs[domain].running && Holds(dir.fs, p)
    }

    /** At most ten observations; success needs the job seen running in the last three. */
    method WaitForRunning(p: Publication, ghost domain: string) returns (ok: bool, seen: seq<bool>)
      requires Valid() && p.name == Unit
      modifies this, dir`fs, dir`seen
      ensures Valid() && Untouched(old(dir.fs), dir.fs)
      ensures old(log) <= log && forall i | |old(log)| <= i < |log| :: log[i].Printed?
      ensures old(Settled()) ==>
                dir.fs == old(dir.fs) && SameJobs(old(jobs), jobs) && missing == old(missing) && twice == old(twice) && pending == {}
      ensures |seen| <= READINESS_ATTEMPTS
      ensures ok ==> |seen| >= READINESS_STABLE && forall i | |seen| - READINESS_STABLE <= i < |seen| :: seen[i]
      ensures smooth && old(Settled()) && old(UpIn(p, domain)) && old(Reachable()) ==>
                (ok <==> HasLaunchdPlistMarker(p.data))
    {
      seen := [];
      var stable := 0;
      for attempt := 0 to READINESS_ATTEMPTS
        invariant Valid() && Untouched(old(dir.fs), dir.fs)
        invariant old(log) <= log && forall i | |old(log)| <= i < |log| :: log[i].Printed?
        invariant old(Settled()) ==>
                    dir.fs == old(dir.fs) && SameJobs(old(jobs), jobs) && missing == old(missing) && twice == old(twice) && pending == {}
        invariant |seen| == attempt && stable <= |seen| && stable < READINESS_STABLE
        invariant forall i | |seen| - stable <= i < |seen| :: seen[i]
        invariant smooth && old(Settled()) ==> jobs == old(jobs)
        invariant smooth && old(Settled()) && old(UpIn(p, domain)) && old(Reachable()) ==>
                    stable == attempt && (attempt > 0 ==> HasLaunchdPlistMarker(p.data))
      {
        var running := Observe(p, domain);
        if running.None? { return false, seen; }
        seen := seen + [running.value];
        stable := if running.value then stable + 1 else 0;
        if stable >= READINESS_STABLE { return true, seen; }
      }
      ok := false;
    }

    /** One observation: whether the job runs, unless plist or job are not what was installed. */
    method Observe(p: Publication, ghost domain: string) returns (running: Option<bool>)
      requires Valid() && p.name == Unit
      modifies this, dir`fs, dir`seen
      ensures Valid() && Untouched(old(dir.fs), dir.fs)
      ensures old(log) <= log && forall i | |old(log)| <= i < |log| :: log[i].Printed?
      ensures old(Settled()) ==>
                dir.fs == old(dir.fs) && SameJobs(old(jobs), jobs) && missing == old(missing) && twice == old(twice) && pending == {}
      ensures smooth && old(Settled()) ==> jobs == old(jobs)
      ensures smooth && old(Settled()) && old(UpIn(p, domain)) && old(Reachable()) ==>
                (running.Some? <==> HasLaunchdPlistMarker(p.data)) && (running.Some? ==> running.value)
    {
      var owned := dir.Require(p, false);
      if !owned { return None; }
      Settle();
      var plist := dir.Capture();
      var labelled: bool := *;
      if plist.Unreadable? || (plist.File? && !((labelled || smooth) && HasLaunchdPlistMarker(plist.publication.data))) { return None; }
      var q := QueryJob(false);
      if q == QueryFailed || (q.LoadedIn? && (plist.Nothing? || q.job.path != ManagedPlist)) { return None; }
      running := Some(q.LoadedIn? && q.job.running);
    }

    /** Unloads only a job of the managed plist; while the job is loaded anywhere the published file stays. */
    method RollbackInstall(p: Publication, domain: string, bootstrapAttempted: bool)
      requires Valid() && p.name == Unit && domain in domains
      modifies this, dir
      ensures Valid() && dir.fs.replaced == old(dir.fs).replaced && dir.fs.made == old(dir.fs).made
      ensures ErasedOnly(old(dir.fs), dir.fs, {}, {p.inode}, p.data)
      ensures old(log) <= log && NoBootstrap(log, |old(log)|) && UnloadsManaged(log, |old(log)|)
      ensures !bootstrapAttempted ==> log == old(log)
      ensures old(Settled()) && !bootstrapAttempted ==> jobs == old(jobs) && pending == {}
      ensures old(Settled()) && reliable && Holds(old(dir.fs), p) && !bootstrapAttempted ==> TakenAway()
      ensures (old(Settled()) && reliable && Holds(old(dir.fs), p) && old(Answerable()) && domain !in old(missing) && bootstrapAttempted
               && LoadedNowhere(old(jobs) - {domain}, domains) && (domain in old(jobs) ==> old(jobs)[domain].path == ManagedPlist)) ==>
                && Eventually() == old(jobs) - {domain}
                && (UnloadAccepted(log, |old(log)|) <==> domain in old(jobs))
                && (TakenAway() || (dir.fs == old(dir.fs) && unloading != Prompt && domain in old(jobs)))
                && (unloading == Late && domain in old(jobs) ==> dir.fs == old(dir.fs))
      ensures old(Settled()) ==> twice == old(twice)
    {
      if bootstrapAttempted {
        var gone := UnloadManaged(domain);
        if !gone { return; }
      }
      RemovePublished(p);
    }

    /** Makes sure that the job is loaded nowhere; one of another plist is left alone. */
    method UnloadManaged(domain: string) returns (gone: bool)
      requires Valid() && domain in domains
      modifies this, dir`fs
      ensures Valid() && Untouched(old(dir.fs), dir.fs)
      ensures old(log) <= log && NoBootstrap(log, |old(log)|) && UnloadsManaged(log, |old(log)|)
      ensures quiet ==> dir.fs == old(dir.fs) && missing == old(missing) && twice == old(twice)
      ensures (old(Settled()) && reliable && old(Answerable()) && LoadedNowhere(old(jobs) - {domain}, domains)
               && (domain in old(jobs) ==> old(jobs)[domain].path == ManagedPlist)) ==>
                && Eventually() == old(jobs) - {domain} && (gone || (unloading != Prompt && domain in old(jobs)))
                && (UnloadAccepted(log, |old(log)|) <==> domain in old(jobs))
                && (unloading == Late && domain in old(jobs) ==> !gone)
    {
      var q := QueryJob(true);
      ghost var asked := log;
      if !q.LoadedIn? { return q == NotLoaded; }
      if q.job.path != ManagedPlist { return false; }
      var ok := Bootout(domain, true);
      UnloadedLog(|old(log)|, asked, log, domain, ok);
      if !ok { return false; }
      q := QueryJob(true);
      UnloadedLog(|old(log)|, asked, log, domain, ok);
      gone := q == NotLoaded;
    }

    /** The published file is gone, and nothing else changed in the directory. */
    twostate predicate TakenAway()
      reads dir
    {
      dir.fs.entries == old(dir.fs).entries - {Unit} && dir.fs.bytes == old(dir.fs).bytes
    }

    method RemovePublished(p: Publication)
      requires Valid() && p.name == Unit
      modifies dir
      ensures Valid() && dir.fs.replaced == old(dir.fs).replaced && dir.fs.made == old(dir.fs).made
      ensures ErasedOnly(old(dir.fs), dir.fs, {}, {p.inode}, p.data)
      ensures quiet && reliable && Holds(old(dir.fs), p) ==> TakenAway()
    {
      var held, took, at := dir.Quarantine(p, true);
      if held.None? { return; }
      var removed, synced := dir.Remove(held.value, true);
      if quiet && removed {
        assert Moved(old(dir.fs), Unit, at).entries - {at} == old(dir.fs).entries - {Unit};
      }
    }

    /** A place to install into: the job is loaded in no candidate domain, and this one exists. */
    ghost predicate Available(domain: string)
      reads this
    {
      LoadedNowhere(jobs, domains) && domain in domains && domain !in missing
    }

    /** The job is loaded from the published plist, which is in place, and nowhere else. */
    ghost predicate Serving(p: Publication, domain: string)
      reads this, dir
    {
      Holds(dir.fs, p) && Restored(domain)
    }

    /**
     * How an error leaves an install, where nobody else is at work and undoing is reliable: the job is or will be as
     * before, and the published file is gone, unless the job was still listed after an unload that had been accepted.
     */
    twostate predicate Withdrawn()
      reads this, dir
    {
      && SameJobs(old(jobs), Eventually())
      && (TakenAway() || (dir.fs == old(dir.fs) && unloading != Prompt && UnloadAccepted(log, |old(log)|)))
      && (unloading == Late && UnloadAccepted(log, |old(log)|) ==> dir.fs == old(dir.fs))
    }

    /** Bootstraps the published plist, waits for the job, and commits the adoption. */
    method Launch(p: Publication, domain: string, adoption: Adoption) returns (ok: bool)
      requires Valid() && p.name == Unit && domain in domains
      modifies this, dir`fs, dir`seen
      ensures Valid() && Untouched(old(dir.fs), dir.fs)
      ensures old(log) < log && log[|old(log)|] == Bootstrapped(domain)
      ensures forall i | |old(log)| < i < |log| :: log[i].Printed?
      ensures old(Settled()) ==> dir.fs == old(dir.fs) && missing == old(missing) && pending == {}
      ensures old(Settled()) && old(Available(domain)) ==>
                && twice == old(twice) && AtMostOnce(jobs, domains) && LoadedNowhere(jobs - {domain}, domains)
                && SameJobs(old(jobs), jobs - {domain}) && (domain in jobs ==> jobs[domain].path == ManagedPlist)
      ensures old(Settled()) && ok && old(Available(domain)) ==> Serving(p, domain)
      ensures smooth && old(Settled()) && Holds(old(dir.fs), p) && old(Available(domain)) ==>
                domain in jobs && (ok <==> HasLaunchdPlistMarker(p.data))
    {
      ok := Bootstrap(domain, false);
      ghost var booted := jobs;
      if old(Settled()) && LoadedNowhere(old(jobs), domains) { ExtendedOnce(old(jobs), jobs, domains, domain); }
      if ok {
        var seen;
        ok, seen := WaitForRunning(p, domain);
        if ok { ok := dir.Require(p, false); }
      }
      if ok && adoption == Pending {
        var commitFails := Fails(false);
        ok := !commitFails;
      }
      if old(Settled()) && old(Available(domain)) { StillOnce(old(jobs), booted, jobs, domains, domain); }
    }

    /** Bootstraps the published plist and waits for the job; on failure job and plist are taken away again. */
    method StartPublished(p: Publication, domain: string, adoption: Adoption) returns (ok: bool, settled: Adoption)
      requires Valid() && p.name == Unit && domain in domains && (adoption == NotBegun || adoption == Pending)
      modifies this, dir
      ensures Valid() && dir.fs.replaced == old(dir.fs).replaced && dir.fs.made == old(dir.fs).made
      ensures ErasedOnly(old(dir.fs), dir.fs, {}, {p.inode}, p.data)
      ensures old(log) < log && log[|old(log)|] == Bootstrapped(domain) && NoBootstrap(log, |old(log)| + 1)
      ensures UnloadsManaged(log, |old(log)|)
      ensures settled == if ok && adoption == Pending then Committed else adoption
      ensures old(Settled()) && old(Available(domain)) ==> twice == old(twice)
      ensures old(Settled()) && ok && old(Available(domain)) ==> dir.fs == old(dir.fs) && Serving(p, domain) && pending == {}
      ensures old(Settled()) && reliable && !ok && Holds(old(dir.fs), p) && old(Available(domain)) ==> Withdrawn()
      ensures smooth && old(Settled()) && Holds(old(dir.fs), p) && old(Available(domain)) ==>
                (ok <==> HasLaunchdPlistMarker(p.data)) && (!ok ==> UnloadAccepted(log, |old(log)|))
    {
      settled := adoption;
      ok := Launch(p, domain, adoption);
      if !ok {
        ghost var waited := log;
        RollbackInstall(p, domain, true);
        StartedLog(old(log), waited, log, domain);
        return;
      }
      if adoption == Pending { settled := Committed; }
    }

    /** From the published plist on: checks it and the job once more, right before bootstrapping. */
    method InstallPublished(p: Publication, domain: string, adoption: Adoption) returns (ok: bool, settled: Adoption)
      requires Valid() && p.name == Unit && domain in domains && (adoption == NotBegun || adoption == Pending)
      modifies this, dir
      ensures Valid() && dir.fs.replaced == old(dir.fs).replaced && dir.fs.made == old(dir.fs).made
      ensures ErasedOnly(old(dir.fs), dir.fs, {}, {p.inode}, p.data)
      ensures old(log) <= log && Guarded(log, |old(log)|, domains, domain) && UnloadsManaged(log, |old(log)|)
      ensures settled == if ok && adoption == Pending then Committed else adoption
      ensures old(Settled()) && old(Available(domain)) ==> twice == old(twice)
      ensures old(Settled()) && ok && old(Available(domain)) ==> dir.fs == old(dir.fs) && Serving(p, domain) && pending == {}
      ensures old(Settled()) && reliable && !ok && Holds(old(dir.fs), p) && old(Available(domain)) ==> Withdrawn()
      ensures smooth && old(Settled()) && Holds(old(dir.fs), p) && old(Available(domain)) ==>
                (ok <==> HasLaunchdPlistMarker(p.data)) && (!ok ==> UnloadAccepted(log, |old(log)|))
    {
      settled := adoption;
      ok := Recheck(p, adoption);
      ghost var listed := log;
      if !ok {
        RollbackInstall(p, domain, false);
        return;
      }
      ok, settled := StartPublished(p, domain, adoption);
      GuardedNow(old(log), listed, log, domains, domain);
      AcceptedLater(log, |old(log)|, |listed|);
    }

    /** The published plist is in place, the job is listed nowhere, and the adoption lets go of its lock. */
    method Recheck(p: Publication, adoption: Adoption) returns (ok: bool)
      requires Valid() && p.name == Unit
      modifies this, dir`fs, dir`seen
      ensures Valid() && Looked() && old(log) <= log && forall i | |old(log)| <= i < |log| :: log[i].Printed?
      ensures ok ==>
                |log| == |old(log)| + |domains| && forall k | 0 <= k < |domains| :: AbsentFrom(log[|old(log)| + k], domains[k])
      ensures smooth && Holds(old(dir.fs), p) && LoadedNowhere(old(jobs), domains) && old(Reachable()) ==> ok
    {
      ok := dir.Require(p, false);
      if !ok { return; }
      var q := QueryJob(false);
      ok := q == NotLoaded;
      if ok && adoption == Pending {
        var unlockFails := Fails(false);
        ok := !unlockFails;
      }
    }

    /**
     * Installing. Whatever others do meanwhile, the only files ever unlinked are those this call created, by their
     * temporary name or by a private name under which they were read once more, as rendered; nothing is replaced; the
     * job is bootstrapped at most once, right after a listing that showed it in no domain, and unloaded only where a
     * listing showed the managed plist.
     *
     * With nobody else at work the job is never loaded twice, and success leaves the rendered plist in place and the
     * job loaded from it in exactly one domain. With undoing reliable besides, an error leaves every name, content
     * and loaded job as they were and an uncommitted adoption rolled back; only where unloads take their time may the
     * job still be listed after one that was accepted, and then the published plist stays.
     */
    method Install(rendered: Option<string>, managed: bool) returns (outcome: Outcome, adoption: Adoption, domain: Option<string>)
      requires Valid()
      modifies this, dir
      ensures Valid() && dir.fs.replaced == old(dir.fs).replaced
      ensures ErasedPublished(old(dir.fs), dir.fs, rendered)
      ensures old(log) <= log && Disciplined(|old(log)|, domain) && UnloadsManaged(log, |old(log)|)
      ensures outcome != SyncFailed
      ensures outcome == Done ==> adoption == if managed then Committed else NotBegun
      ensures outcome == Error ==> adoption == NotBegun || adoption == RolledBack || (!reliable && adoption == Stuck)
      ensures old(Settled()) ==> twice == old(twice)
      ensures old(Settled()) && outcome == Done ==> domain.Some? && Up(rendered, domain.value)
      ensures old(Settled()) && reliable && outcome == Error ==> Unmade()
      ensures smooth && old(Settled()) ==>
                (outcome == Done <==>
                   && Clear(old(dir.fs), old(jobs), old(missing), domains)
                   && rendered.Some? && HasLaunchdPlistMarker(rendered.value))
      ensures smooth && old(Settled()) && unloading == Late && Clear(old(dir.fs), old(jobs), old(missing), domains)
              && rendered.Some? && outcome == Error ==>
                Unit in dir.fs.entries
    {
      adoption, domain := NotBegun, None;
      domain := Prepare();
      ghost var listed := log;
      if domain.None? { return Error, adoption, domain; }
      var ok;
      ok, adoption := Adopt(rendered, domain.value, managed);
      PreparedLog(|old(log)|, listed, log, domains, domain.value);
      outcome := if ok then Done else Error;
    }

    /** Installs under an adoption, if one is asked for, which an error rolls back. */
    method Adopt(rendered: Option<string>, domain: string, managed: bool) returns (ok: bool, adoption: Adoption)
      requires Valid() && domain in domains
      modifies this, dir
      ensures Valid() && dir.fs.replaced == old(dir.fs).replaced && old(dir.fs).made <= dir.fs.made
      ensures ErasedPublished(old(dir.fs), dir.fs, rendered)
      ensures old(log) <= log && Guarded(log, |old(log)|, domains, domain) && UnloadsManaged(log, |old(log)|)
      ensures ok ==> rendered.Some? && adoption == if managed then Committed else NotBegun
      ensures !ok ==> adoption == NotBegun || adoption == RolledBack || (!reliable && adoption == Stuck)
      ensures old(Settled()) && old(Available(domain)) ==> twice == old(twice)
      ensures old(Settled()) && ok && old(Available(domain)) ==> Up(rendered, domain)
      ensures old(Settled()) && reliable && !ok && Unit !in old(dir.fs).entries && old(Available(domain)) ==> Unmade()
      ensures smooth && old(Settled()) && Unit !in old(dir.fs).entries && old(Available(domain)) ==>
                && (ok <==> rendered.Some? && HasLaunchdPlistMarker(rendered.value))
                && (!ok && rendered.Some? && unloading == Late ==> Unit in dir.fs.entries)
    {
      adoption := NotBegun;
      if managed {
        var fails := Fails(false);
        if fails { return false, adoption; }
        adoption := Pending;
      }
      ok, adoption := InstallPlist(rendered, domain, adoption);
      if !ok && adoption == Pending {
        var fails := Fails(true);
        adoption := if fails then Stuck else RolledBack;
      }
    }

    /** The rendered plist is in place, and the job loaded from it in this domain alone. */
    ghost predicate Up(rendered: Option<string>, domain: string)
      reads this, dir
    {
      && Unit in dir.fs.entries && dir.fs.entries[Unit] in dir.fs.bytes && rendered == Some(dir.fs.bytes[dir.fs.entries[Unit]])
      && Restored(domain)
    }

    /** Contents and jobs are or will be as they were, and so are the names unless an accepted unload took its time. */
    twostate predicate Unmade()
      reads this, dir
    {
      && SameBytes(old(dir.fs), dir.fs) && SameJobs(old(jobs), Eventually())
      && (Visible(dir.fs) == Visible(old(dir.fs)) || (unloading != Prompt && UnloadAccepted(log, |old(log)|)))
    }

    /** There is no plist, and a domain to install into. */
    method Prepare() returns (domain: Option<string>)
      requires Valid()
      modifies this, dir`fs, dir`seen
      ensures Valid() && Looked() && old(log) <= log && forall i | |old(log)| <= i < |log| :: log[i].Printed?
      ensures domain.Some? ==> domain.value in domains
      ensures quiet && domain.Some? ==> Unit !in dir.fs.entries && Available(domain.value) && pending == {}
      ensures smooth && old(Settled()) ==> (domain.Some? <==> Clear(dir.fs, jobs, missing, domains))
    {
      var plist := dir.Capture();
      if !plist.Nothing? { return None; }
      domain := RequireInstallTargetAvailable();
    }

    method InstallPlist(rendered: Option<string>, domain: string, adoption: Adoption) returns (ok: bool, settled: Adoption)
      requires Valid() && domain in domains && (adoption == NotBegun || adoption == Pending)
      modifies this, dir
      ensures Valid() && dir.fs.replaced == old(dir.fs).replaced && old(dir.fs).made <= dir.fs.made
      ensures ErasedPublished(old(dir.fs), dir.fs, rendered)
      ensures old(log) <= log && Guarded(log, |old(log)|, domains, domain) && UnloadsManaged(log, |old(log)|)
      ensures settled == if ok && adoption == Pending then Committed else adoption
      ensures ok ==> rendered.Some?
      ensures old(Settled()) && old(Available(domain)) ==> twice == old(twice)
      ensures old(Settled()) && ok && old(Available(domain)) ==> Up(rendered, domain)
      ensures old(Settled()) && reliable && !ok && Unit !in old(dir.fs).entries && old(Available(domain)) ==> Unmade()
      ensures smooth && old(Settled()) && Unit !in old(dir.fs).entries && old(Available(domain)) ==>
                && (ok <==> rendered.Some? && HasLaunchdPlistMarker(rendered.value))
                && (!ok && rendered.Some? && unloading == Late ==> Unit in dir.fs.entries)
    {
      ok, settled := false, adoption;
      if rendered.None? { return; }
      var publication, published, temp := dir.Publish(rendered.value);
      if publication.None? { return; }
      ghost var mid := dir.fs;
      var p := publication.value;
      if !published {
        RollbackInstall(p, domain, false);
      } else {
        ok, settled := InstallPublished(p, domain, adoption);
      }
      if old(Settled()) && reliable && !ok && Unit !in old(dir.fs).entries && old(Available(domain)) && Unit !in dir.fs.entries {
        UndonePublication(old(dir.fs), mid, dir.fs, p.inode);
      }
    }
  }

  /** One bootstrap, right after a listing that showed the job nowhere. */
  lemma {:induction false} GuardedNow(before: seq<Command>, listed: seq<Command>, log: seq<Command>, domains: seq<string>, domain: string)
    requires before <= listed < log && |listed| == |before| + |domains|
    requires forall k | 0 <= k < |domains| :: AbsentFrom(listed[|before| + k], domains[k])
    requires log[|listed|] == Bootstrapped(domain) && NoBootstrap(log, |listed| + 1)
    ensures Guarded(log, |before|, domains, domain)
  {
    forall i | |before| <= i < |listed| ensures log[i].Printed? {
      assert AbsentFrom(listed[|before| + (i - |before|)], domains[i - |before|]);
    }
    forall k | 0 <= k < |domains| ensures AbsentFrom(log[|listed| - |domains| + k], domains[k]) {
      assert AbsentFrom(listed[|before| + k], domains[k]);
    }
  }

  /** Commands that bootstrap nothing keep the rule. */
  lemma {:induction false} GuardedStays(done: seq<Command>, log: seq<Command>, from: nat, domains: seq<string>, domain: string)
    requires done <= log && from <= |done| && Guarded(done, from, domains, domain)
    requires NoBootstrap(log, |done|)
    ensures Guarded(log, from, domains, domain)
  {
    forall i | from <= i < |log| && log[i].Bootstrapped?
      ensures log[i].domain == domain && from + |domains| <= i && NoBootstrap(log, i + 1)
      ensures forall k | 0 <= k < |domains| :: AbsentFrom(log[i - |domains| + k], domains[k])
    {
      assert i < |done| && log[i] == done[i];
      forall k | 0 <= k < |domains| ensures AbsentFrom(log[i - |domains| + k], domains[k]) {
        assert AbsentFrom(done[i - |domains| + k], domains[k]);
      }
      forall j | i < j < |log| ensures !log[j].Bootstrapped? {
        if j < |done| { assert !done[j].Bootstrapped?; }
      }
    }
  }

  lemma {:induction false} ExtendedOnce(was: Jobs, now: Jobs, domains: seq<string>, domain: string)
    requires LoadedNowhere(was, domains)
    requires now == was || now == was[domain := Job(ManagedPlist, true)]
    ensures AtMostOnce(now, domains)
  {
  }

  lemma {:induction false} GuardedLater(log: seq<Command>, from: nat, mid: nat, domains: seq<string>, domain: string)
    requires from <= mid <= |log| && Guarded(log, mid, domains, domain)
    requires forall i | from <= i < mid :: !log[i].Bootstrapped?
    ensures Guarded(log, from, domains, domain)
  {
  }

  /** Listings, one of which showed the managed plist, an unload, and more listings. */
  lemma {:induction false} UnloadedLog(from: nat, asked: seq<Command>, log: seq<Command>, domain: string, ok: bool)
    requires from <= |asked| && asked < log && log[|asked|] == BootedOut(domain, ok) && ManagedShown(asked, from, |asked|)
    requires forall i | from <= i < |log| && i != |asked| :: log[i].Printed?
    ensures NoBootstrap(log, from) && UnloadsManaged(log, from) && (UnloadAccepted(log, from) <==> ok)
  {
    var j :| from <= j < |asked| && asked[j].Printed? && asked[j].shown.Listed? && asked[j].shown.job.path == ManagedPlist;
    assert log[j] == asked[j];
    assert ManagedShown(log, from, |asked|);
  }

  /** Listings before the commands of an install. */
  lemma {:induction false} PreparedLog(from: nat, listed: seq<Command>, log: seq<Command>, domains: seq<string>, domain: string)
    requires from <= |listed| && listed <= log && forall i | from <= i < |listed| :: listed[i].Printed?
    requires Guarded(log, |listed|, domains, domain) && UnloadsManaged(log, |listed|)
    ensures Guarded(log, from, domains, domain) && UnloadsManaged(log, from)
    ensures UnloadAccepted(log, from) <==> UnloadAccepted(log, |listed|)
  {
    assert forall i | from <= i < |listed| :: log[i] == listed[i];
    forall i | from <= i < |log| && log[i].BootedOut? ensures ManagedShown(log, from, i) {
      assert ManagedShown(log, |listed|, i);
    }
  }

  /** A bootstrap, listings, and what undoes it. */
  lemma {:induction false} StartedLog(before: seq<Command>, waited: seq<Command>, log: seq<Command>, domain: string)
    requires before < waited <= log && waited[|before|] == Bootstrapped(domain)
    requires forall i | |before| < i < |waited| :: waited[i].Printed?
    requires NoBootstrap(log, |waited|) && UnloadsManaged(log, |waited|)
    ensures UnloadsManaged(log, |before|)
    ensures log[|before|] == Bootstrapped(domain) && NoBootstrap(log, |before| + 1)
    ensures UnloadAccepted(log, |before|) <==> UnloadAccepted(log, |waited|)
    ensures forall i | |before| <= i < |waited| :: !log[i].BootedOut?
  {
    assert forall i | |before| <= i < |waited| :: log[i] == waited[i];
    forall i | |before| <= i < |log| && log[i].BootedOut? ensures ManagedShown(log, |before|, i) {
      assert ManagedShown(log, |waited|, i);
    }
  }

  lemma {:induction false} AcceptedLater(log: seq<Command>, from: nat, mid: nat)
    requires from <= mid <= |log| && forall i | from <= i < mid :: !log[i].BootedOut?
    ensures UnloadAccepted(log, from) <==> UnloadAccepted(log, mid)
    ensures Unloads(log, from) <==> Unloads(log, mid)
  {
  }

  /** A job unloaded or not, and loaded again from the same file where it was, is the same job. */
  lemma {:induction false} BackAgain(original: Jobs, mid: Jobs, now: Jobs, domain: string)
    requires domain in original && original[domain].path == ManagedPlist
    requires mid == original || mid == original - {domain}
    requires now == mid || (domain !in mid && now == mid[domain := Job(ManagedPlist, true)])
    requires domain in now
    ensures SameJobs(original, now)
  {
  }

  /** A job introduced into one domain and left to run or not is still loaded at most there. */
  lemma {:induction false} StillOnce(was: Jobs, booted: Jobs, now: Jobs, domains: seq<string>, domain: string)
    requires LoadedNowhere(was, domains) && SameJobs(booted, now) && domain in domains
    requires booted == was || (domain !in was && booted == was[domain := Job(ManagedPlist, true)])
    ensures AtMostOnce(now, domains) && LoadedNowhere(now - {domain}, domains)
    ensures domain in now ==> LoadedOnlyIn(now, domains, domain) && now[domain].path == ManagedPlist
    ensures SameJobs(was, now - {domain})
  {
  }

  /** The world before and after a transaction. */
  datatype World = World(fs: Fs, jobs: Jobs, missing: set<string>)

  ghost predicate Admissible(w: World, ids: nat, domains: seq<string>) {
    Sound(w.fs) && Numbered(w.fs, ids) && NoRepeats(domains) && forall d | d in w.jobs :: d !in w.missing
  }

  /**
   * Uninstalling from any world, stated on the worlds before and after and on the commands in between; `left` is what
   * remains loaded once accepted unloads have taken effect.
   */
  method UninstallFrom(before: World, ids: nat, domains: seq<string>, unloading: Unloading, quiet: bool, reliable: bool, smooth: bool)
    returns (outcome: Outcome, plist: Captured, domain: Option<string>, after: World, left: Jobs, ghost log: seq<Command>, ghost twice: bool)
    requires Admissible(before, ids, domains) && (smooth ==> quiet && reliable)
    ensures after.fs.replaced == before.fs.replaced && after.fs.made == before.fs.made
    ensures ErasedCaptured(before.fs, after.fs, plist)
    ensures after.fs.erased != before.fs.erased ==> plist.File? && HasLaunchdPlistMarker(plist.publication.data)
    ensures domain.Some? ==> Guarded(log, 0, domains, domain.value)
    ensures domain.None? ==> NoBootstrap(log, 0)
    ensures quiet && domain.Some? ==> LoadedOnlyIn(before.jobs, domains, domain.value)
    ensures quiet ==> !twice
    ensures quiet && outcome != Error ==> Unit !in after.fs.entries && LoadedNowhere(after.jobs, domains) && left == after.jobs
    ensures quiet && reliable && outcome == Error ==> after.fs == before.fs
    ensures quiet && reliable && outcome == Error && (unloading == Prompt || !Unloads(log, 0) || !NoBootstrap(log, 0)) ==>
              SameJobs(before.jobs, after.jobs) && left == after.jobs
    ensures quiet && reliable && outcome == Error && Unloads(log, 0) && NoBootstrap(log, 0) ==>
              && domain.Some? && (left == before.jobs || left == before.jobs - {domain.value})
              && (UnloadAccepted(log, 0) ==> left == before.jobs - {domain.value})
    ensures quiet && reliable && outcome == Error && UnloadAccepted(log, 0) ==>
              (SameJobs(before.jobs, left) <==> !NoBootstrap(log, 0))
    ensures smooth ==> outcome != SyncFailed
    ensures smooth && unloading != Eventual ==>
              (outcome == Done <==>
                 || Clear(before.fs, before.jobs, before.missing, domains)
                 || (Removable(before.fs, before.jobs, before.missing, domains)
                     && (unloading == Prompt || LoadedNowhere(before.jobs, domains))))
    ensures smooth && unloading == Late && Removable(before.fs, before.jobs, before.missing, domains)
            && !LoadedNowhere(before.jobs, domains) ==>
              UnloadAccepted(log, 0) && NoBootstrap(log, 0)
  {
    var dir := new Directory(before.fs, ids, quiet, reliable, smooth);
    var service := new Launchd(dir, domains, before.jobs, before.missing, unloading);
    outcome, plist, domain := service.Uninstall();
    after, left := World(dir.fs, service.jobs, service.missing), Left(service.jobs, service.pending);
    log, twice := service.log, service.twice;
  }

  /** Where unloads take effect late, uninstalling a loaded service fails and loses the job: plist in place, nothing loaded. */
  method LateUnloadLosesTheJob(before: World, ids: nat, domains: seq<string>) returns (outcome: Outcome, after: World, left: Jobs)
    requires Admissible(before, ids, domains) && Removable(before.fs, before.jobs, before.missing, domains)
    requires !LoadedNowhere(before.jobs, domains)
    ensures outcome == Error && after.fs == before.fs && LoadedNowhere(left, domains)
  {
    var plist, domain;
    ghost var log, twice;
    outcome, plist, domain, after, left, log, twice := UninstallFrom(before, ids, domains, Late, true, true, true);
    assert NoBootstrap(log, 0) && Unloads(log, 0);
  }

  /** Installing into any world, stated on the worlds before and after. */
  method InstallInto(before: World, ids: nat, domains: seq<string>, unloading: Unloading, rendered: Option<string>, managed: bool,
                     quiet: bool, reliable: bool, smooth: bool)
    returns (outcome: Outcome, adoption: Adoption, domain: Option<string>, after: World, left: Jobs, ghost log: seq<Command>, ghost twice: bool)
    requires Admissible(before, ids, domains) && (smooth ==> quiet && reliable)
    ensures after.fs.replaced == before.fs.replaced
    ensures ErasedPublished(before.fs, after.fs, rendered)
    ensures domain.Some? ==> Guarded(log, 0, domains, domain.value)
    ensures domain.None? ==> NoBootstrap(log, 0)
    ensures outcome == Done ==> adoption == if managed then Committed else NotBegun
    ensures outcome != Done ==> adoption == NotBegun || adoption == RolledBack || (!reliable && adoption == Stuck)
    ensures quiet ==> !twice
    ensures quiet && outcome == Done ==>
              && rendered.Some? && Unit in after.fs.entries && after.fs.entries[Unit] in after.fs.bytes
              && after.fs.bytes[after.fs.entries[Unit]] == rendered.value
              && domain.Some? && LoadedOnlyIn(after.jobs, domains, domain.value) && after.jobs[domain.value].path == ManagedPlist
    ensures quiet && reliable && outcome != Done ==>
              && SameBytes(before.fs, after.fs) && SameJobs(before.jobs, left)
              && (Visible(after.fs) == Visible(before.fs) || (unloading != Prompt && UnloadAccepted(log, 0)))
    ensures smooth ==>
              (outcome == Done <==>
                 && Clear(before.fs, before.jobs, before.missing, domains)
                 && rendered.Some? && HasLaunchdPlistMarker(rendered.value))
    ensures smooth && unloading == Late && Clear(before.fs, before.jobs, before.missing, domains)
            && rendered.Some? && outcome != Done ==>
              Unit in after.fs.entries
  {
    var dir := new Directory(before.fs, ids, quiet, reliable, smooth);
    var service := new Launchd(dir, domains, before.jobs, before.missing, unloading);
    outcome, adoption, domain := service.Install(rendered, managed);
    after, left := World(dir.fs, service.jobs, service.missing), Left(service.jobs, service.pending);
    log, twice := service.log, service.twice;
  }
}
