/**
 * The service directory as a map from names to inodes, and the publish, quarantine, restore and remove steps of the
 * service transactions. Other processes may change anything but private names between any two system calls.
 */
module UnitFiles {
  import opened Options

  /** The service file's own name, the transactions' private names, and every other name. */
  datatype Name = Unit | Temp(id: nat) | Quarantine(id: nat) | Other(path: string)

  /**
   * `bytes` holds the content of regular files; `made` are the inodes our own system calls created and `erased`
   * lists, in order, the names our own system calls removed, and `replaced` the inodes whose names our own
   * system calls gave to another file.
   */
  datatype Fs = Fs(entries: map<Name, nat>, bytes: map<nat, string>, next: nat,
                   made: set<nat>, erased: seq<Erasure>, replaced: seq<nat>)

  /** One unlink: the name, the inode it stood for, and what was last read under that name, if it ever was. */
  datatype Erasure = Erasure(name: Name, inode: nat, seen: Option<Publication>)

  datatype Publication = Publication(name: Name, data: string, inode: nat)

  datatype Captured = Nothing | Unreadable | File(publication: Publication)

  /** How a transaction ends: done, refused or undone, or removed but not known to be durable. */
  datatype Outcome = Done | Error | SyncFailed

  /** The managed-update adoption an install may carry; only a committed one outlives a failure. */
  datatype Adoption = NotBegun | Pending | Committed | RolledBack | Stuck

  predicate Private(n: Name) { n.Temp? || n.Quarantine? }

  ghost predicate Sound(fs: Fs) {
    && (forall n | n in fs.entries :: fs.entries[n] < fs.next)
    && (forall i | i in fs.bytes :: i < fs.next)
    && (forall i | i in fs.made :: i < fs.next)
  }

  /** Private names carry transaction identities already given out. */
  ghost predicate Numbered(fs: Fs, ids: nat) {
    forall n | n in fs.entries && Private(n) :: n.id < ids
  }

  /** The private entries of both agree, except perhaps at these names. */
  ghost predicate PrivateBut(s: Fs, t: Fs, but: set<Name>) {
    forall n | Private(n) && n !in but :: (n in s.entries <==> n in t.entries) && (n in s.entries ==> s.entries[n] == t.entries[n])
  }

  /** Nothing of ours was removed, created or renamed. */
  ghost predicate Untouched(s: Fs, t: Fs) {
    PrivateBut(s, t, {}) && t.erased == s.erased && t.replaced == s.replaced && t.made == s.made && s.next <= t.next
  }

  predicate Holds(fs: Fs, p: Publication) {
    p.name in fs.entries && fs.entries[p.name] == p.inode && p.inode in fs.bytes && fs.bytes[p.inode] == p.data
  }

  /** The names other programs look at. */
  function Visible(fs: Fs): map<Name, nat> {
    map n | n in fs.entries && !n.Temp? :: fs.entries[n]
  }

  /** Gives an inode a name, whatever the name stood for. */
  function Named(fs: Fs, name: Name, inode: nat): Fs {
    fs.(entries := fs.entries[name := inode],
        replaced := fs.replaced + if name in fs.entries then [fs.entries[name]] else [])
  }

  function Moved(fs: Fs, from: Name, to: Name): Fs
    requires from in fs.entries
  {
    Named(fs.(entries := fs.entries - {from}), to, fs.entries[from])
  }

  function Unlinked(fs: Fs, name: Name, seen: Option<Publication>): Fs
    requires name in fs.entries
  {
    fs.(entries := fs.entries - {name}, erased := fs.erased + [Erasure(name, fs.entries[name], seen)])
  }

  /**
   * An unlink that destroys nobody else's file: of a temporary file from `temps` by its private name, or of one of
   * `files` by a private quarantine name under which exactly this inode was last read, with exactly this content.
   */
  predicate Rightful(e: Erasure, temps: set<nat>, files: set<nat>, data: string) {
    || (e.name.Temp? && e.inode in temps)
    || (e.name.Quarantine? && e.inode in files && e.seen == Some(Publication(e.name, data, e.inode)))
  }

  /** Everything erased since was erased rightfully. */
  ghost predicate ErasedOnly(s: Fs, t: Fs, temps: set<nat>, files: set<nat>, data: string) {
    s.erased <= t.erased && forall i | |s.erased| <= i < |t.erased| :: Rightful(t.erased[i], temps, files, data)
  }

  /** Of files that were there before, at most the captured one was erased, read again as captured just before. */
  ghost predicate ErasedCaptured(s: Fs, t: Fs, found: Captured) {
    if found.File? then ErasedOnly(s, t, {}, {found.publication.inode}, found.publication.data) else t.erased == s.erased
  }

  /** Only files made since were erased; one that had left its temporary name was read again as published just before. */
  ghost predicate ErasedPublished(s: Fs, t: Fs, rendered: Option<string>) {
    if rendered.Some? then ErasedOnly(s, t, t.made - s.made, t.made - s.made, rendered.value) else t.erased == s.erased
  }

  /** Files that existed keep their content. */
  ghost predicate SameBytes(s: Fs, t: Fs) {
    forall i | i in s.bytes :: i in t.bytes && t.bytes[i] == s.bytes[i]
  }

  class Directory {
    /** No other process touches the directory. */
    const quiet: bool
    /** System calls made to undo something do not fail. */
    const reliable: bool
    /** Nothing fails at all. */
    const smooth: bool
    var fs: Fs
    /** What was last read under each name. */
    var seen: map<Name, Publication>
    /** Transaction identities are random; the model numbers them, so that none comes up twice. */
    var ids: nat

    ghost predicate Valid()
      reads this
    {
      Sound(fs) && Numbered(fs, ids) && (smooth ==> quiet && reliable)
    }

    constructor (fs: Fs, ids: nat, quiet: bool, reliable: bool, smooth: bool)
      requires Sound(fs) && Numbered(fs, ids) && (smooth ==> quiet && reliable)
      ensures Valid() && this.fs == fs && this.quiet == quiet && this.reliable == reliable && this.smooth == smooth
    {
      this.fs, this.ids, this.quiet, this.reliable, this.smooth, seen := fs, ids, quiet, reliable, smooth, map[];
    }

    /** A call that cannot fail of itself. */
    predicate Sure(undoing: bool) { reliable && (undoing || smooth) }

    method NewTransactionID(undoing: bool) returns (id: Option<nat>)
      requires Valid()
      modifies this`ids
      ensures Valid() && old(ids) <= ids
      ensures id.Some? ==> id.value < ids && Temp(id.value) !in fs.entries && Name.Quarantine(id.value) !in fs.entries
      ensures Sure(undoing) ==> id.Some?
    {
      var fails := Fails(undoing);
      if fails { return None; }
      id := Some(ids);
      ids := ids + 1;
    }

    /** Any other process may have run. */
    method Foreign()
      requires Valid()
      modifies this`fs
      ensures Valid() && Untouched(old(fs), fs) && (quiet ==> fs == old(fs))
    {
      if quiet { return; }
      var theirs: map<Name, nat>, contents: map<nat, string>, some: int := *, *, *;
      var next := if some > fs.next then some else fs.next;
      var entries :=
        (map n | n in theirs && !Private(n) && theirs[n] < next :: theirs[n]) + (map n | n in fs.entries && Private(n) :: fs.entries[n]);
      var bytes := map i | i in contents && i < next :: contents[i];
      fs := Fs(entries, bytes, next, fs.made, fs.erased, fs.replaced);
    }

    /** A system call may fail, unless it undoes something where that is reliable. */
    method Fails(undoing: bool) returns (fails: bool)
      ensures Sure(undoing) ==> !fails
    {
      fails := *;
      if Sure(undoing) { fails := false; }
    }

    /** Opens what a name stands for and reads it, if it is a regular file. */
    method Read(name: Name, undoing: bool) returns (found: Option<Publication>, failed: bool)
      requires Valid()
      modifies this`fs, this`seen
      ensures Valid() && Untouched(old(fs), fs) && (quiet ==> fs == old(fs))
      ensures found.Some? ==>
                !failed && found.value.name == name && Holds(fs, found.value) && seen == old(seen)[name := found.value]
      ensures found.None? && !failed ==> name !in fs.entries || fs.entries[name] !in fs.bytes
      ensures Sure(undoing) ==> !failed
    {
      Foreign();
      found := None;
      failed := Fails(undoing);
      if failed || name !in fs.entries || fs.entries[name] !in fs.bytes { return; }
      found := Some(Publication(name, fs.bytes[fs.entries[name]], fs.entries[name]));
      seen := seen[name := found.value];
    }

    /** Reads the file under the publication's name and compares identity and content. */
    method Matches(p: Publication, undoing: bool) returns (owned: bool, failed: bool)
      requires Valid()
      modifies this`fs, this`seen
      ensures Valid() && Untouched(old(fs), fs) && (quiet ==> fs == old(fs))
      ensures owned ==> !failed && Holds(fs, p) && p.name in seen && seen[p.name] == p
      ensures quiet && !failed ==> owned == Holds(fs, p)
      ensures Sure(undoing) ==> !failed
    {
      var found;
      found, failed := Read(p.name, undoing);
      var moved: bool := *;
      owned := !failed && (quiet || !moved) && found == Some(p);
    }

    method Require(p: Publication, undoing: bool) returns (ok: bool)
      requires Valid()
      modifies this`fs, this`seen
      ensures Valid() && Untouched(old(fs), fs) && (quiet ==> fs == old(fs))
      ensures ok ==> Holds(fs, p)
      ensures quiet && Sure(undoing) ==> ok == Holds(fs, p)
    {
      var owned, failed := Matches(p, undoing);
      ok := owned;
    }

    /** Reads the file at the service's name, if there is one. */
    method Capture() returns (found: Captured)
      requires Valid()
      modifies this`fs, this`seen
      ensures Valid() && Untouched(old(fs), fs) && (quiet ==> fs == old(fs))
      ensures found.Nothing? ==> Unit !in fs.entries
      ensures found.File? ==> found.publication.name == Unit && Holds(fs, found.publication)
      ensures smooth ==> (found.Nothing? <==> Unit !in fs.entries)
      ensures smooth && Unit in fs.entries && fs.entries[Unit] in fs.bytes ==> found.File?
    {
      var file, failed := Read(Unit, false);
      found :=
        if failed then Unreadable
        else if file.Some? then File(file.value)
        else if Unit in fs.entries then Unreadable
        else Nothing;
    }

    /** Renames without ever replacing an entry. */
    method RenameNoReplace(from: Name, to: Name, undoing: bool) returns (ok: bool)
      requires Valid() && from != to && (Private(to) ==> to.id < ids)
      modifies this`fs
      ensures Valid() && fs.erased == old(fs).erased && fs.replaced == old(fs).replaced
      ensures fs.made == old(fs).made && old(fs).next <= fs.next
      ensures PrivateBut(old(fs), fs, {from, to})
      ensures ok ==> to in fs.entries && from !in fs.entries
      ensures ok && Private(to) ==> to !in old(fs).entries
      ensures ok && Private(from) ==> from in old(fs).entries && fs.entries[to] == old(fs).entries[from]
      ensures !ok ==> Untouched(old(fs), fs)
      ensures quiet && ok ==> from in old(fs).entries && to !in old(fs).entries && fs == Moved(old(fs), from, to)
      ensures quiet && !ok ==> fs == old(fs)
      ensures quiet && Sure(undoing) && from in old(fs).entries && to !in old(fs).entries ==> ok
    {
      Foreign();
      var fails := Fails(undoing);
      if fails || from !in fs.entries || to in fs.entries { return false; }
      fs := Moved(fs, from, to);
      ok := true;
    }

    function LastSeen(name: Name): Option<Publication>
      reads this`seen
    {
      if name in seen then Some(seen[name]) else None
    }

    method Unlink(name: Name, undoing: bool) returns (ok: bool)
      requires Valid() && Private(name)
      modifies this`fs
      ensures Valid() && fs.made == old(fs).made && fs.replaced == old(fs).replaced && old(fs).next <= fs.next
      ensures PrivateBut(old(fs), fs, {name})
      ensures ok ==> name in old(fs).entries && name !in fs.entries && fs.erased == old(fs).erased + [Erasure(name, old(fs).entries[name], LastSeen(name))]
      ensures !ok ==> Untouched(old(fs), fs)
      ensures quiet && ok ==> fs == Unlinked(old(fs), name, LastSeen(name))
      ensures quiet && !ok ==> fs == old(fs)
      ensures Sure(undoing) && name in old(fs).entries ==> ok
    {
      Foreign();
      var fails := Fails(undoing);
      if fails || name !in fs.entries { return false; }
      fs := Unlinked(fs, name, LastSeen(name));
      ok := true;
    }

    /** Moves the file at the service's name to a private name, and back if it is not the expected one. */
    method Quarantine(p: Publication, undoing: bool)
      returns (held: Option<Publication>, ghost took: Option<nat>, ghost at: Name)
      requires Valid() && p.name == Unit
      modifies this
      ensures Valid() && fs.erased == old(fs).erased && fs.replaced == old(fs).replaced && fs.made == old(fs).made
      ensures old(fs).next <= fs.next && at.Quarantine? && PrivateBut(old(fs), fs, {at})
      ensures held.Some? ==> held.value == p.(name := at) && Holds(fs, held.value) && at !in old(fs).entries
      ensures held.None? && took.None? ==> Untouched(old(fs), fs)
      ensures held.None? && took.Some? ==>
                || (Unit in fs.entries && fs.entries[Unit] == took.value)
                || (at in fs.entries && fs.entries[at] == took.value)
      ensures quiet && held.Some? ==> Holds(old(fs), p) && fs == Moved(old(fs), Unit, at)
      ensures quiet && reliable && held.None? ==> fs == old(fs)
      ensures quiet && Sure(undoing) && Holds(old(fs), p) ==> held.Some?
    {
      took, at := None, Name.Quarantine(0);
      var id := NewTransactionID(undoing);
      if id.None? { return None, took, at; }
      var name := Name.Quarantine(id.value);
      at := name;
      var renamed := RenameNoReplace(Unit, name, undoing);
      if !renamed { return None, took, at; }
      took := Some(fs.entries[name]);
      var owned, failed := Matches(p.(name := name), undoing);
      if owned { return Some(p.(name := name)), took, at; }
      var back := RenameNoReplace(name, Unit, true);
      if quiet && back {
        assert Moved(Moved(old(fs), Unit, name), name, Unit).entries == old(fs).entries;
      }
      return None, took, at;
    }

    /** Puts a quarantined file back under the service's name; `synced` is whether that was also made durable. */
    method Restore(held: Publication) returns (restored: Option<Publication>, synced: bool)
      requires Valid() && held.name.Quarantine?
      modifies this`fs, this`seen
      ensures Valid() && fs.erased == old(fs).erased && fs.replaced == old(fs).replaced && fs.made == old(fs).made
      ensures old(fs).next <= fs.next && PrivateBut(old(fs), fs, {held.name})
      ensures restored.Some? ==> restored.value == held.(name := Unit) && Holds(fs, restored.value) && held.name !in fs.entries
      ensures quiet && reliable && Holds(old(fs), held) && Unit !in old(fs).entries ==>
                restored.Some? && fs == Moved(old(fs), held.name, Unit)
    {
      var ok := Require(held, true);
      if !ok { return None, false; }
      ok := RenameNoReplace(held.name, Unit, true);
      if !ok { return None, false; }
      ok := Require(held.(name := Unit), true);
      if !ok { return None, false; }
      synced := *;
      restored := Some(held.(name := Unit));
    }

    /** Removes a quarantined file for good, if it is still the expected one. */
    method Remove(held: Publication, undoing: bool) returns (removed: bool, synced: bool)
      requires Valid() && held.name.Quarantine?
      modifies this`fs, this`seen
      ensures Valid() && fs.replaced == old(fs).replaced && fs.made == old(fs).made
      ensures old(fs).next <= fs.next && PrivateBut(old(fs), fs, {held.name})
      ensures removed ==> fs.erased == old(fs).erased + [Erasure(held.name, held.inode, Some(held))] && held.name !in fs.entries
      ensures !removed ==> Untouched(old(fs), fs) && !synced
      ensures quiet && removed ==> Holds(old(fs), held) && fs == Unlinked(old(fs), held.name, Some(held))
      ensures quiet && !removed ==> fs == old(fs)
      ensures quiet && Sure(undoing) && Holds(old(fs), held) ==> removed
      ensures smooth && Holds(old(fs), held) ==> synced
    {
      var owned, failed := Matches(held, undoing);
      if !owned { return false, false; }
      removed := Unlink(held.name, undoing);
      synced := *;
      synced := removed && (smooth || synced);
    }

    /** Creates a private file exclusively. */
    method CreateTemp(name: Name) returns (inode: Option<nat>)
      requires Valid() && name.Temp? && name.id < ids
      modifies this`fs
      ensures Valid() && fs.erased == old(fs).erased && fs.replaced == old(fs).replaced && old(fs).next <= fs.next
      ensures PrivateBut(old(fs), fs, {name})
      ensures inode.None? ==> Untouched(old(fs), fs)
      ensures inode.Some? ==>
                && name !in old(fs).entries && name in fs.entries && fs.entries[name] == inode.value
                && inode.value >= old(fs).next && fs.made == old(fs).made + {inode.value} && inode.value in fs.bytes
      ensures quiet ==> Visible(fs) == Visible(old(fs)) && SameBytes(old(fs), fs)
      ensures smooth && name !in old(fs).entries ==> inode.Some?
    {
      Foreign();
      var fails := Fails(false);
      if fails || name in fs.entries { return None; }
      inode := Some(fs.next);
      fs := fs.(entries := fs.entries[name := fs.next], bytes := fs.bytes[fs.next := ""],
                made := fs.made + {fs.next}, next := fs.next + 1);
    }

    /** Writes and syncs the whole content, or leaves some part of it behind. */
    method Fill(inode: nat, data: string) returns (ok: bool)
      requires Valid() && inode in fs.made
      modifies this`fs
      ensures Valid() && Untouched(old(fs), fs)
      ensures quiet ==> fs.entries == old(fs).entries && (forall i | i in old(fs).bytes && i != inode :: i in fs.bytes && fs.bytes[i] == old(fs).bytes[i])
      ensures ok ==> inode in fs.bytes && fs.bytes[inode] == data
      ensures smooth ==> ok
    {
      Foreign();
      ok := *;
      ok := ok || smooth;
      var part: string := *;
      fs := fs.(bytes := fs.bytes[inode := if ok then data else part]);
    }

    /** Gives a private file the service's name too, unless that name is taken. */
    method Link(from: Name, p: Publication) returns (ok: bool)
      requires Valid() && from.Temp? && p.name == Unit
      requires from in fs.entries && fs.entries[from] == p.inode && (quiet ==> Holds(fs, p.(name := from)))
      modifies this`fs
      ensures Valid() && Untouched(old(fs), fs)
      ensures ok ==> Unit in fs.entries && fs.entries[Unit] == p.inode
      ensures quiet && ok ==> Unit !in old(fs).entries && fs == Named(old(fs), Unit, p.inode)
      ensures quiet && !ok ==> fs == old(fs)
      ensures smooth && Unit !in old(fs).entries ==> ok
    {
      Foreign();
      var fails := Fails(false);
      if fails || Unit in fs.entries { return false; }
      fs := Named(fs, Unit, fs.entries[from]);
      ok := true;
    }

    /** The deferred removal of the temporary name: a name that is gone already is no error. */
    method Cleanup(temp: Name) returns (ok: bool)
      requires Valid() && temp.Temp?
      modifies this`fs
      ensures Valid() && fs.made == old(fs).made && fs.replaced == old(fs).replaced && old(fs).next <= fs.next
      ensures PrivateBut(old(fs), fs, {temp})
      ensures fs.erased == old(fs).erased
                + if temp in old(fs).entries && temp !in fs.entries then [Erasure(temp, old(fs).entries[temp], LastSeen(temp))] else []
      ensures temp !in old(fs).entries ==> Untouched(old(fs), fs)
      ensures temp in fs.entries ==> temp in old(fs).entries && fs.entries[temp] == old(fs).entries[temp]
      ensures quiet ==> Visible(fs) == Visible(old(fs)) && fs.bytes == old(fs).bytes
      ensures smooth ==> ok
    {
      var removed := Unlink(temp, false);
      ok := *;
      ok := removed || (smooth && temp !in fs.entries) || (ok && temp !in fs.entries);
    }

    /** Creates, fills and links the temporary file; on success the service's name stands for it. */
    method Stage(data: string, temp: Name) returns (publication: Option<Publication>, own: Option<nat>)
      requires Valid() && temp.Temp? && temp.id < ids
      modifies this`fs
      ensures Valid() && fs.erased == old(fs).erased && fs.replaced == old(fs).replaced && old(fs).next <= fs.next
      ensures PrivateBut(old(fs), fs, {temp})
      ensures fs.made == old(fs).made + if own.Some? then {own.value} else {}
      ensures own.None? ==> publication.None? && Untouched(old(fs), fs)
      ensures own.Some? ==> own.value >= old(fs).next && temp in fs.entries && fs.entries[temp] == own.value
      ensures publication.Some? ==> own.Some? && publication.value == Publication(Unit, data, own.value)
      ensures quiet && publication.None? ==> Visible(fs) == Visible(old(fs)) && SameBytes(old(fs), fs)
      ensures quiet && publication.Some? ==>
                Unit !in old(fs).entries && Visible(fs) == Visible(old(fs))[Unit := publication.value.inode]
                && Holds(fs, publication.value) && SameBytes(old(fs), fs)
      ensures smooth && temp !in old(fs).entries && Unit !in old(fs).entries ==> publication.Some?
    {
      publication, own := None, None;
      var inode := CreateTemp(temp);
      if inode.None? { return; }
      own := inode;
      var wrote := Fill(inode.value, data);
      if !wrote { return; }
      var p := Publication(Unit, data, inode.value);
      NamedVisible(fs, inode.value);
      UnitVisible(old(fs), fs);
      var linked := Link(temp, p);
      if linked { publication := Some(p); }
    }

    /**
     * Publishes new content under the service's name if it is free. Whatever happens, only the file made here is
     * ever unlinked, and nothing is replaced.
     */
    method Publish(data: string) returns (publication: Option<Publication>, ok: bool, ghost temp: Name)
      requires Valid()
      modifies this
      ensures Valid() && fs.replaced == old(fs).replaced && old(fs).next <= fs.next && old(fs).made <= fs.made
      ensures temp.Temp? && PrivateBut(old(fs), fs, {temp})
      ensures ErasedOnly(old(fs), fs, fs.made - old(fs).made, {}, data)
      ensures ok ==> publication.Some?
      ensures publication.Some? ==>
                publication.value.name == Unit && publication.value.data == data
                && publication.value.inode in fs.made && publication.value.inode >= old(fs).next
      ensures quiet && publication.None? ==> Visible(fs) == Visible(old(fs)) && SameBytes(old(fs), fs)
      ensures quiet && publication.Some? ==>
                Unit !in old(fs).entries && Visible(fs) == Visible(old(fs))[Unit := publication.value.inode]
                && Holds(fs, publication.value) && SameBytes(old(fs), fs)
      ensures smooth && Unit !in old(fs).entries ==> ok
    {
      publication, ok, temp := None, false, Temp(0);
      var id := NewTransactionID(false);
      if id.None? { return; }
      temp := Temp(id.value);
      var own;
      publication, own := Stage(data, Temp(id.value));
      if own.None? { return; }
      ghost var staged := fs;
      var cleaned := Tidy(Temp(id.value), publication.Some?);
      ok := publication.Some? && cleaned;
      if quiet && publication.Some? { SameView(staged, fs, publication.value); }
    }

    /** Removes the temporary name, first for good if something was published, and then at any rate. */
    method Tidy(temp: Name, published: bool) returns (ok: bool)
      requires Valid() && temp.Temp? && temp in fs.entries
      modifies this`fs
      ensures Valid() && fs.made == old(fs).made && fs.replaced == old(fs).replaced && old(fs).next <= fs.next
      ensures PrivateBut(old(fs), fs, {temp})
      ensures fs.erased == old(fs).erased || fs.erased == old(fs).erased + [Erasure(temp, old(fs).entries[temp], LastSeen(temp))]
      ensures quiet ==> Visible(fs) == Visible(old(fs)) && fs.bytes == old(fs).bytes
      ensures smooth ==> ok
    {
      ok := true;
      if published {
        ok := Unlink(temp, false);
        var synced: bool := *;
        ok := ok && (smooth || synced);
      }
      var cleaned := Cleanup(temp);
      ok := ok && cleaned;
    }
  }

  lemma {:induction false} NamedVisible(fs: Fs, inode: nat)
    ensures Visible(Named(fs, Unit, inode)) == Visible(fs)[Unit := inode]
  {
  }

  lemma {:induction false} UnitVisible(s: Fs, t: Fs)
    ensures Visible(s) == Visible(t) ==> (Unit in s.entries <==> Unit in t.entries)
  {
    assert Unit in Visible(s) <==> Unit in s.entries;
    assert Unit in Visible(t) <==> Unit in t.entries;
  }

  lemma {:induction false} SameView(s: Fs, t: Fs, p: Publication)
    requires p.name == Unit && Visible(s) == Visible(t) && s.bytes == t.bytes
    ensures Holds(s, p) <==> Holds(t, p)
  {
    assert Unit in s.entries ==> Visible(s)[Unit] == s.entries[Unit];
    assert Unit in t.entries ==> Visible(t)[Unit] == t.entries[Unit];
    UnitVisible(s, t);
  }

  /** Taking away what was published leaves the visible names as before. */
  lemma {:induction false} UndonePublication(before: Fs, mid: Fs, after: Fs, inode: nat)
    requires Unit !in before.entries && Visible(mid) == Visible(before)[Unit := inode] && SameBytes(before, mid)
    requires after.entries == mid.entries - {Unit} && after.bytes == mid.bytes
    ensures Visible(after) == Visible(before) && SameBytes(before, after)
  {
    forall n ensures n in Visible(after) <==> n in Visible(before) {
      assert n in Visible(mid) <==> n in Visible(before) || n == Unit;
    }
    forall n | n in Visible(after) ensures Visible(after)[n] == Visible(before)[n] {
      assert Visible(mid)[n] == Visible(before)[n];
    }
  }
}
