/**
 What the controller's calls keep: no snapshot taken for a clone outlives its
 volume, nothing with dependent clones is destroyed, calls can be repeated, and
 creating a volume and deleting it gives back the heap as it was; and exactly
 when a call does not keep to that.
 */
module ZfsLifecycle {
  import opened Wrappers
  import opened Text
  import opened ZfsVolumes

  // What ZFS itself keeps: snapshots belong to datasets, clones to snapshots,
  // and a deferred snapshot has a clone to wait for.
  ghost predicate WellFormed(h: Heap) {
    && (forall s | s in h.snaps :: s.dataset in h.datasets && (h.snaps[s].deferred ==> HasClone(h, s)))
    && (forall d | d in h.datasets && h.datasets[d].origin.Some? :: h.datasets[d].origin.value in h.snaps)
  }

  // A snapshot named after a volume has that volume as its clone.
  ghost predicate Accounted(h: Heap, s: Snap) {
    IsCloneName(s.name) ==> ClonedBy(h, s, ClaimedBy(s.name))
  }

  // Every such snapshot but those in `except`.
  ghost predicate AccountedBut(h: Heap, except: set<Snap>) {
    forall s | s in h.snaps && s !in except :: Accounted(h, s)
  }

  ghost predicate Inv(h: Heap) {
    WellFormed(h) && AccountedBut(h, {})
  }

  lemma CloneNameOf(id: string)
    ensures IsCloneName(CLONE_PREFIX + id) && ClaimedBy(CLONE_PREFIX + id) == Volume(id)
  {
    assert (CLONE_PREFIX + id)[|CLONE_PREFIX|..] == id;
  }

  lemma DetachedIsNoCloneName(name: string)
    ensures !IsCloneName(DETACHED_PREFIX + name)
  {
    assert (DETACHED_PREFIX + name)[18] == 's';
    assert CLONE_PREFIX[18] == 'v';
  }

  // ------------------------------------------------- what each command keeps ---

  lemma CloneAt(h: Heap, s: Snap, d: Dataset)
    requires ClonedBy(h, s, d)
    ensures HasClone(h, s)
  {
  }

  lemma SnapshotKeeps(h: Heap, s: Snap, managed: bool)
    requires WellFormed(h)
    ensures var g := Snapshot(h, s, managed).heap;
            && WellFormed(g) && g.datasets == h.datasets
            && (AccountedBut(h, {}) ==> AccountedBut(g, if s in h.snaps then {} else {s}))
            && forall t :: HasClone(g, t) <==> HasClone(h, t)
  {
    var g := Snapshot(h, s, managed).heap;
    assert forall t, d :: ClonedBy(g, t, d) <==> ClonedBy(h, t, d);
  }

  lemma CloneKeeps(h: Heap, s: Snap, d: Dataset, except: set<Snap>)
    requires WellFormed(h) && AccountedBut(h, except)
    ensures var g := Clone(h, s, d).heap;
            WellFormed(g) && AccountedBut(g, except)
  {
    var g := Clone(h, s, d).heap;
    forall t | HasClone(h, t) ensures HasClone(g, t) {
      var e :| e in h.datasets && ClonedBy(h, t, e);
      CloneAt(g, t, e);
    }
    assert forall t, e :: ClonedBy(h, t, e) ==> ClonedBy(g, t, e);
  }

  // Datasets keep their origins; snapshots may go, or be deferred, but none
  // with a clone goes and none without one waits.
  ghost predicate Prunes(h: Heap, g: Heap) {
    && g.datasets.Keys == h.datasets.Keys
    && (forall d | d in h.datasets :: g.datasets[d].origin == h.datasets[d].origin)
    && (forall s | s in g.snaps :: s in h.snaps && (g.snaps[s].deferred ==> HasClone(h, s)))
    && (forall s | s in h.snaps && HasClone(h, s) :: s in g.snaps)
  }

  lemma SameClones(h: Heap, g: Heap)
    requires g.datasets.Keys == h.datasets.Keys
    requires forall d | d in h.datasets :: g.datasets[d].origin == h.datasets[d].origin
    ensures forall s, d :: ClonedBy(g, s, d) <==> ClonedBy(h, s, d)
    ensures forall s :: HasClone(g, s) <==> HasClone(h, s)
  {
    assert forall s, d :: ClonedBy(g, s, d) <==> ClonedBy(h, s, d);
  }

  lemma PruneKeeps(h: Heap, g: Heap, except: set<Snap>)
    requires WellFormed(h) && Prunes(h, g) && AccountedBut(h, except)
    ensures WellFormed(g) && AccountedBut(g, except)
    ensures forall s :: HasClone(g, s) <==> HasClone(h, s)
  {
    SameClones(h, g);
    forall d | d in g.datasets && g.datasets[d].origin.Some? ensures g.datasets[d].origin.value in g.snaps {
      assert ClonedBy(h, h.datasets[d].origin.value, d);
    }
  }

  lemma DestroySnapshotPrunes(h: Heap, s: Snap)
    requires WellFormed(h)
    ensures Prunes(h, DestroySnapshot(h, s).heap)
  {
  }

  lemma DestroyAllPrunes(h: Heap, d: Dataset)
    requires WellFormed(h)
    ensures Prunes(h, DestroyAllSnapshots(h, d).heap)
  {
  }

  lemma ManagePrunes(h: Heap, d: Dataset)
    requires WellFormed(h)
    ensures Prunes(h, SetManaged(h, d))
    ensures HasDependents(SetManaged(h, d), d) <==> HasDependents(h, d)
  {
    SameClones(h, SetManaged(h, d));
  }

  // A dataset that is not there has no snapshot, and none was made from it.
  lemma FreshCopy(h: Heap, s: Snap, id: string, always: bool)
    requires WellFormed(h) && s in h.snaps && Volume(id) !in h.datasets
    ensures Filled(h, s, id, true, always) == (h.(datasets := h.datasets[Volume(id) := Info(None, true)]), Ok)
  {
    var d := Volume(id);
    var r := SendReceive(h, s, d).heap;
    var g := SetManaged(r, d);
    var t := Snap(d, s.name);
    assert t in g.snaps && HasSnaps(g, d);
    assert forall e | e in g.datasets :: !ClonedBy(g, t, e);
    assert !HasDependents(g, d);
    assert WithoutSnaps(g, d).snaps == h.snaps;
    assert g.datasets == h.datasets[d := Info(None, true)];
  }

  lemma NewDatasetKeeps(h: Heap, d: Dataset, managed: bool, except: set<Snap>)
    requires WellFormed(h) && AccountedBut(h, except) && d !in h.datasets
    ensures var g := h.(datasets := h.datasets[d := Info(None, managed)]);
            && WellFormed(g) && AccountedBut(g, except)
            && forall s :: HasClone(g, s) <==> HasClone(h, s)
  {
    var g := h.(datasets := h.datasets[d := Info(None, managed)]);
    assert forall s, e :: ClonedBy(g, s, e) <==> ClonedBy(h, s, e);
  }

  lemma EmptiedKeeps(h: Heap, d: Dataset, except: set<Snap>)
    requires WellFormed(h) && AccountedBut(h, except)
    ensures var g := DestroyAllSnapshots(h, d).heap;
            && WellFormed(g) && AccountedBut(g, except)
            && (forall t :: HasClone(g, t) <==> HasClone(h, t))
            && (HasDependents(h, d) ==> g == h)
  {
    DestroyAllPrunes(h, d);
    PruneKeeps(h, DestroyAllSnapshots(h, d).heap, except);
  }

  // Filling a volume by send and receive.
  lemma DetachedKeeps(h: Heap, s: Snap, id: string, always: bool, except: set<Snap>)
    requires WellFormed(h) && AccountedBut(h, except) && s in h.snaps
    ensures var r := Filled(h, s, id, true, always);
            && WellFormed(r.0) && AccountedBut(r.0, except)
            && (r.1 == Ok <==> (Volume(id) !in h.datasets || !HasDependents(h, Volume(id))))
            && (r.1 != Ok ==> r.0.snaps == h.snaps)
            && (forall t :: HasClone(r.0, t) <==> HasClone(h, t))
  {
    var d := Volume(id);
    if d !in h.datasets {
      FreshCopy(h, s, id, always);
      NewDatasetKeeps(h, d, true, except);
    } else {
      ManagePrunes(h, d);
      if always {
        PruneKeeps(h, SetManaged(h, d), except);
        EmptiedKeeps(SetManaged(h, d), d, except);
      } else {
        EmptiedKeeps(h, d, except);
      }
    }
  }

  lemma ReapKeepsOthers(h: Heap, d: Dataset)
    requires WellFormed(h) && d in h.datasets && !HasDependents(h, d)
    ensures WellFormed(Destroy(h, d).heap)
    ensures var g := Destroy(h, d).heap;
            && g.datasets == h.datasets - {d}
            && (forall s | s in g.snaps :: s in h.snaps && g.snaps[s] == h.snaps[s])
            && (forall s | s in h.snaps && s.dataset != d && Some(s) != h.datasets[d].origin :: s in g.snaps)
  {
    var g := Destroy(h, d).heap;
    forall s, e | e != d ensures ClonedBy(g, s, e) <==> ClonedBy(h, s, e) {
    }
    forall s | s in g.snaps && g.snaps[s].deferred ensures HasClone(g, s) {
      var e :| e in h.datasets && ClonedBy(h, s, e);
      if e != d {
        CloneAt(g, s, e);
      }
    }
    forall e | e in g.datasets && g.datasets[e].origin.Some? ensures g.datasets[e].origin.value in g.snaps {
      var s := h.datasets[e].origin.value;
      CloneAt(h, s, e);
      CloneAt(g, s, e);
    }
  }

  predicate HasOtherClone(h: Heap, s: Snap, d: Dataset) {
    exists e | e in h.datasets :: e != d && ClonedBy(h, s, e)
  }

  // Destroying the dataset leaves the snapshot named after it behind.
  predicate Strands(h: Heap, d: Dataset) {
    d in h.datasets && h.datasets[d].origin.Some? &&
    var s := h.datasets[d].origin.value;
    && IsCloneName(s.name) && ClaimedBy(s.name) == d && s in h.snaps
    && (!h.snaps[s].deferred || HasOtherClone(h, s, d))
  }

  // The origin of a destroyed dataset stays unless it was waiting for it alone.
  lemma OriginGoes(h: Heap, d: Dataset, s: Snap)
    requires WellFormed(h) && ClonedBy(h, s, d) && !HasDependents(h, d)
    ensures s in Destroy(h, d).heap.snaps <==> !h.snaps[s].deferred || HasOtherClone(h, s, d)
  {
    CloneAt(h, s, d);
    var w := WithoutSnaps(h, d);
    var x := w.(datasets := w.datasets - {d});
    assert forall e :: ClonedBy(x, s, e) <==> e != d && ClonedBy(h, s, e);
    if HasOtherClone(h, s, d) {
      var e :| e in h.datasets && e != d && ClonedBy(h, s, e);
      CloneAt(x, s, e);
    }
  }

  lemma DestroyKeeps(h: Heap, d: Dataset)
    requires Inv(h) && d in h.datasets && !HasDependents(h, d)
    ensures WellFormed(Destroy(h, d).heap)
    ensures Inv(Destroy(h, d).heap) <==> !Strands(h, d)
  {
    ReapKeepsOthers(h, d);
    var g := Destroy(h, d).heap;
    forall s | s in g.snaps && Some(s) != h.datasets[d].origin ensures Accounted(g, s) {
      assert Accounted(h, s);
    }
    if h.datasets[d].origin.Some? {
      var s := h.datasets[d].origin.value;
      OriginGoes(h, d, s);
      assert Accounted(h, s);
      assert s in g.snaps && IsCloneName(s.name) && ClaimedBy(s.name) != d ==> ClonedBy(g, s, ClaimedBy(s.name));
      assert s in g.snaps && IsCloneName(s.name) && ClaimedBy(s.name) == d ==> !Accounted(g, s);
    }
  }

  // Nothing is named after a copy or a container.
  lemma OtherDestroyKeeps(h: Heap, d: Dataset)
    requires Inv(h) && !d.Volume?
    ensures Inv(Destroy(h, d).heap)
  {
    if d in h.datasets && !HasDependents(h, d) {
      DestroyKeeps(h, d);
    }
  }

  // ------------------------------------------- the calls that take snapshots ---

  // The snapshots a call could leave behind, named after a volume that is not
  // their clone: one the call takes for a volume that is there and was not made
  // from it, one the caller names that way, and one whose volume goes while
  // another clone keeps it.
  predicate Leaks(h: Heap, rpc: Rpc) {
    match rpc
    case CreateVolume(id, content, detached, fits) =>
      var d := Volume(id);
      var stays := d in h.datasets && fits;
      (match content
       case FromVolume(_) =>
         var s := SourceSnap(id, content);
         s.dataset in h.datasets && stays && h.datasets[d].origin != Some(s) && (!detached || HasDependents(h, d))
       case FromCopy(_, _) =>
         var s := SourceSnap(id, content);
         s.dataset in h.datasets && stays && h.datasets[d].origin != Some(s) && detached && HasDependents(h, d)
       case _ => false)
    case CreateSnapshot(source, name) =>
      var s := Snap(Volume(source), name);
      IsCloneName(name) && !NameElsewhere(h, source, name) && s.dataset in h.datasets && s !in h.snaps
    case DeleteVolume(id, retain, ignoreForeign) => !retain && Outlived(h, id, ignoreForeign)
    case _ => false
  }

  // The volume may be deleted, and the snapshot named after it, which it was
  // made from, has another clone.
  predicate Outlived(h: Heap, id: string, ignoreForeign: bool) {
    var d := Volume(id);
    && d in h.datasets && h.datasets[d].origin.Some?
    && h.datasets[d].origin.value.name == CLONE_PREFIX + id && HasOtherClone(h, h.datasets[d].origin.value, d)
    && !HasManagedSnapshots(h, d, ignoreForeign) && !HasDependents(h, d)
  }

  lemma AbsentHasNoClone(h: Heap, s: Snap)
    requires WellFormed(h) && s !in h.snaps
    ensures !HasClone(h, s)
  {
  }

  // A snapshot taken for an occasion is unaccounted for until it goes or is
  // cloned.
  lemma DropKeeps(h: Heap, s: Snap)
    requires WellFormed(h) && AccountedBut(h, {s})
    requires HasClone(h, s) ==> Accounted(h, s)
    ensures Inv(DestroySnapshot(h, s).heap)
  {
    DestroySnapshotPrunes(h, s);
    PruneKeeps(h, DestroySnapshot(h, s).heap, {s});
    var g := DestroySnapshot(h, s).heap;
    if s in g.snaps && HasClone(h, s) {
      assert g.datasets == h.datasets;
    }
  }

  lemma CloneOfVolume(h: Heap, id: string, content: Source)
    requires Inv(h) && content.FromVolume?
    ensures Inv(Created(h, id, content, false).0) <==> !Leaks(h, Rpc.CreateVolume(id, content, false, true))
    ensures WellFormed(Created(h, id, content, false).0)
  {
    var s, d := SourceSnap(id, content), Volume(id);
    CloneNameOf(id);
    if s.dataset in h.datasets {
      var t := Snapshot(h, s, false).heap;
      SnapshotKeeps(h, s, false);
      CloneKeeps(t, s, d, {s});
      var g := Clone(t, s, d).heap;
      assert Accounted(g, s) <==> ClonedBy(g, s, d);
      assert s in g.snaps;
    }
  }

  lemma CopyOfVolume(h: Heap, id: string, content: Source)
    requires Inv(h) && content.FromVolume?
    ensures Inv(Created(h, id, content, true).0) <==> !Leaks(h, Rpc.CreateVolume(id, content, true, true))
    ensures WellFormed(Created(h, id, content, true).0)
  {
    var s := SourceSnap(id, content);
    CloneNameOf(id);
    if s.dataset in h.datasets {
      TemporarySnapshot(h, s, id, true);
    }
  }

  // Taking the snapshot, filling the volume by send and receive and dropping
  // the snapshot.
  lemma TemporarySnapshot(h: Heap, s: Snap, id: string, always: bool)
    requires Inv(h) && s.dataset in h.datasets && s.name == CLONE_PREFIX + id
    ensures var d, r := Volume(id), Filled(Snapshot(h, s, false).heap, s, id, true, always);
            && WellFormed(r.0) && WellFormed(DestroySnapshot(r.0, s).heap)
            && (r.1 == Ok ==> Inv(DestroySnapshot(r.0, s).heap))
            && (r.1 != Ok <==> d in h.datasets && HasDependents(h, d))
            && (r.1 != Ok ==> (Inv(r.0) <==> h.datasets[d].origin == Some(s)))
  {
    var d, t := Volume(id), Snapshot(h, s, false).heap;
    CloneNameOf(id);
    SnapshotKeeps(h, s, false);
    assert s in t.snaps;
    DetachedKeeps(t, s, id, always, {s});
    SameDependents(h, s, d);
    var r := Filled(t, s, id, true, always);
    OriginStays(t, s, id, always);
    if HasClone(r.0, s) {
      HasCloneIsOwn(h, s, d);
      assert ClonedBy(r.0, s, d);
    }
    DropKeeps(r.0, s);
    assert Accounted(r.0, s) <==> ClonedBy(r.0, s, d);
  }

  lemma SameDependents(h: Heap, s: Snap, d: Dataset)
    requires WellFormed(h)
    ensures HasDependents(Snapshot(h, s, false).heap, d) <==> HasDependents(h, d)
  {
    SnapshotKeeps(h, s, false);
    if s !in h.snaps {
      AbsentHasNoClone(h, s);
    }
  }

  lemma OriginStays(h: Heap, s: Snap, id: string, always: bool)
    requires s in h.snaps
    ensures var g := Filled(h, s, id, true, always).0;
            forall d | d in h.datasets :: d in g.datasets && g.datasets[d].origin == h.datasets[d].origin
  {
  }

  lemma HasCloneIsOwn(h: Heap, s: Snap, d: Dataset)
    requires Inv(h) && HasClone(h, s) && IsCloneName(s.name) && d == ClaimedBy(s.name)
    ensures ClonedBy(h, s, d)
  {
    if s !in h.snaps {
      AbsentHasNoClone(h, s);
    }
    assert Accounted(h, s);
  }

  // From a detached snapshot, the temporary snapshot never outlives a call that
  // succeeds: it goes, or it is deferred until its clone goes.
  lemma CloneOfCopy(h: Heap, id: string, content: Source)
    requires Inv(h) && content.FromCopy?
    ensures Inv(Created(h, id, content, false).0)
  {
    var s, d := SourceSnap(id, content), Volume(id);
    CloneNameOf(id);
    if s.dataset in h.datasets {
      var t := Snapshot(h, s, false).heap;
      SnapshotKeeps(h, s, false);
      CloneKeeps(t, s, d, {s});
      var g := Clone(t, s, d).heap;
      if d in h.datasets && HasClone(g, s) {
        HasCloneIsOwn(h, s, d);
      }
      assert HasClone(g, s) ==> ClonedBy(g, s, d);
      DropKeeps(g, s);
    }
  }

  lemma CopyOfCopy(h: Heap, id: string, content: Source)
    requires Inv(h) && content.FromCopy?
    ensures Inv(Created(h, id, content, true).0) <==> !Leaks(h, Rpc.CreateVolume(id, content, true, true))
    ensures WellFormed(Created(h, id, content, true).0)
  {
    var s := SourceSnap(id, content);
    if s.dataset in h.datasets {
      TemporarySnapshot(h, s, id, false);
    }
  }

  lemma FromSnapshotKeeps(h: Heap, id: string, content: Source, detached: bool)
    requires Inv(h) && content.FromSnapshot?
    ensures Inv(Created(h, id, content, detached).0)
  {
    var s := SourceSnap(id, content);
    if s in h.snaps {
      if detached {
        DetachedKeeps(h, s, id, false, {});
      } else {
        CloneKeeps(h, s, Volume(id), {});
      }
    }
  }

  lemma SnappedKeeps(h: Heap, source: string, name: string)
    requires Inv(h)
    ensures Inv(Snapped(h, source, name).0) <==> !Leaks(h, Rpc.CreateSnapshot(source, name))
    ensures WellFormed(Snapped(h, source, name).0)
  {
    var s := Snap(Volume(source), name);
    SnapshotKeeps(h, s, true);
    var g := Snapshot(h, s, true).heap;
    if IsCloneName(name) && s !in h.snaps && s.dataset in h.datasets {
      AbsentHasNoClone(h, s);
      assert s in g.snaps && !Accounted(g, s) by {
        if ClonedBy(g, s, ClaimedBy(name)) {
          CloneAt(g, s, ClaimedBy(name));
        }
      }
    }
  }

  lemma DeletedKeeps(h: Heap, id: string, ignoreForeign: bool)
    requires Inv(h)
    ensures Inv(Deleted(h, id, ignoreForeign).0) <==> !Outlived(h, id, ignoreForeign)
  {
    var d := Volume(id);
    var g := Released(h, d);
    ReleasedKeeps(h, d);
    ReleasedManaged(h, d, ignoreForeign);
    assert HasDependents(g, d) <==> HasDependents(h, d);
    if d in g.datasets && !HasDependents(g, d) {
      DestroyKeeps(g, d);
      CloneNameOf(id);
      StrandsIffOutlived(h, id);
    }
  }

  lemma StrandsIffOutlived(h: Heap, id: string)
    requires Inv(h) && Volume(id) in h.datasets
    ensures var d := Volume(id);
            Strands(Released(h, d), d)
            <==> h.datasets[d].origin.Some? && h.datasets[d].origin.value.name == CLONE_PREFIX + id
                 && HasOtherClone(h, h.datasets[d].origin.value, d)
  {
    var d := Volume(id);
    var g := Released(h, d);
    ReleasedKeeps(h, d);
    CloneNameOf(id);
    if h.datasets[d].origin.Some? {
      var s := h.datasets[d].origin.value;
      assert forall e :: ClonedBy(g, s, e) <==> ClonedBy(h, s, e);
      assert IsCloneName(s.name) ==> s.name == CLONE_PREFIX + s.name[|CLONE_PREFIX|..];
      CloneAt(h, s, d);
    }
  }

  lemma ReleasedKeeps(h: Heap, d: Dataset)
    requires Inv(h)
    ensures var g := Released(h, d);
            && Inv(g) && g.datasets == h.datasets && g.snaps.Keys == h.snaps.Keys
            && (forall s :: HasClone(g, s) <==> HasClone(h, s))
            && (d in h.datasets ==>
                  var o := g.datasets[d].origin; o.Some? && IsCloneName(o.value.name) ==> g.snaps[o.value].deferred)
  {
    if d in h.datasets && h.datasets[d].origin.Some? && IsCloneName(h.datasets[d].origin.value.name) {
      var s := h.datasets[d].origin.value;
      CloneAt(h, s, d);
      DestroySnapshotPrunes(h, s);
      PruneKeeps(h, DestroySnapshot(h, s).heap, {});
    }
  }

  lemma SnapshotDeletedKeeps(h: Heap, s: Snap)
    requires Inv(h)
    ensures Inv(DestroySnapshot(h, s).heap)
  {
    DestroySnapshotPrunes(h, s);
    PruneKeeps(h, DestroySnapshot(h, s).heap, {});
  }

  lemma CopiedKeeps(h: Heap, source: string, name: string)
    requires Inv(h)
    ensures Inv(Copied(h, source, name).0)
  {
    DetachedIsNoCloneName(name);
    var s, d := Snap(Volume(source), DETACHED_PREFIX + name), Copy(source, name);
    var c := Container(source);
    var g := Create(h, c, false).heap;
    if c !in h.datasets {
      NewDatasetKeeps(h, c, false, {});
    }
    if Volume(source) in h.datasets {
      var t := Snapshot(g, s, false).heap;
      SnapshotKeeps(g, s, false);
      PlainCopyKeeps(t, s, d);
      var u := SendReceive(t, s, d);
      var w := if u.outcome == Done then SetManaged(u.heap, d) else u.heap;
      SnapshotDeletedKeeps(w, Snap(d, s.name));
      SnapshotDeletedKeeps(DestroySnapshot(w, Snap(d, s.name)).heap, s);
    }
  }

  lemma PlainCopyKeeps(h: Heap, s: Snap, d: Dataset)
    requires Inv(h) && !IsCloneName(s.name)
    ensures var u := SendReceive(h, s, d); Inv(if u.outcome == Done then SetManaged(u.heap, d) else u.heap)
  {
    var u := SendReceive(h, s, d).heap;
    if s in h.snaps && d !in h.datasets {
      assert forall t, e :: ClonedBy(u, t, e) <==> ClonedBy(h, t, e);
      assert forall t :: HasClone(u, t) <==> HasClone(h, t);
      ManagePrunes(u, d);
      PruneKeeps(u, SetManaged(u, d), {});
    }
  }

  lemma CopyDeletedKeeps(h: Heap, source: string, name: string)
    requires Inv(h)
    ensures Inv(CopyDeleted(h, source, name).0)
  {
    var d, c := Copy(source, name), Container(source);
    OtherDestroyKeeps(h, d);
    var g := Destroy(h, d).heap;
    DestroyAllPrunes(g, c);
    PruneKeeps(g, DestroyAllSnapshots(g, c).heap, {});
    ContainerKeeps(DestroyAllSnapshots(g, c).heap, source);
  }

  lemma ContainerKeeps(h: Heap, source: string)
    requires Inv(h)
    ensures Inv(DestroyContainer(h, source).heap)
  {
    var c := Container(source);
    if c in h.datasets && !HasCopies(h, source) && !HasSnaps(h, c) {
      assert WithoutSnaps(h, c).snaps == h.snaps;
      OtherDestroyKeeps(h, c);
    }
  }

  lemma CreatedKeeps(h: Heap, id: string, content: Source, detached: bool, fits: bool)
    requires Inv(h) && (Volume(id) in h.datasets ==> fits)
    ensures Inv(Created(h, id, content, detached).0) <==> !Leaks(h, Rpc.CreateVolume(id, content, detached, fits))
  {
    match content
    case Blank =>
      if Volume(id) !in h.datasets {
        NewDatasetKeeps(h, Volume(id), true, {});
      }
    case FromVolume(_) =>
      if detached {
        CopyOfVolume(h, id, content);
      } else {
        CloneOfVolume(h, id, content);
      }
    case FromCopy(_, _) =>
      if detached {
        CopyOfCopy(h, id, content);
      } else {
        CloneOfCopy(h, id, content);
      }
    case FromSnapshot(_, _) =>
      FromSnapshotKeeps(h, id, content, detached);
  }

  // ---------------------------------------------------------------- theorems ---

  /**
   Exactly when a call leaves a snapshot named after a volume without that
   volume as its clone, where none was before: in the cases of `Leaks`.
   */
  lemma LeaksExactly(h: Heap, rpc: Rpc)
    requires Inv(h)
    ensures WellFormed(Step(h, rpc).0)
    ensures AccountedBut(Step(h, rpc).0, {}) <==> !Leaks(h, rpc)
  {
    StepKeepsWell(h, rpc);
    match rpc
    case CreateVolume(id, content, detached, fits) =>
      if Volume(id) !in h.datasets || fits {
        CreatedKeeps(h, id, content, detached, fits);
      }
    case DeleteVolume(id, retain, ignoreForeign) =>
      DeletedKeeps(h, id, ignoreForeign);
    case CreateSnapshot(source, name) =>
      SnappedKeeps(h, source, name);
    case CreateDetachedSnapshot(source, name) =>
      CopiedKeeps(h, source, name);
    case DeleteSnapshot(volume, name) =>
      SnapshotDeletedKeeps(h, Snap(Volume(volume), name));
    case DeleteDetachedSnapshot(source, name) =>
      CopyDeletedKeeps(h, source, name);
  }

  function Run(h: Heap, rpcs: seq<Rpc>): Heap
    decreases |rpcs|
  {
    if rpcs == [] then h else Run(Step(h, rpcs[0]).0, rpcs[1..])
  }

  predicate Harmless(h: Heap, rpcs: seq<Rpc>)
    decreases |rpcs|
  {
    rpcs == [] || (!Leaks(h, rpcs[0]) && Harmless(Step(h, rpcs[0]).0, rpcs[1..]))
  }

  // After any run of such calls, every snapshot taken for a volume belongs to
  // that volume, which is there as its clone.
  lemma {:induction false} RunsLeakNothing(h: Heap, rpcs: seq<Rpc>)
    requires Inv(h) && Harmless(h, rpcs)
    ensures Inv(Run(h, rpcs))
    ensures forall s, id | s in Run(h, rpcs).snaps && s.name == CLONE_PREFIX + id ::
              ClonedBy(Run(h, rpcs), s, Volume(id))
    decreases |rpcs|
  {
    if rpcs != [] {
      LeaksExactly(h, rpcs[0]);
      RunsLeakNothing(Step(h, rpcs[0]).0, rpcs[1..]);
    } else {
      forall s, id | s in h.snaps && s.name == CLONE_PREFIX + id ensures ClonedBy(h, s, Volume(id)) {
        CloneNameOf(id);
        assert Accounted(h, s);
      }
    }
  }

  // The datasets a call may add, and those it may take away.
  function Added(rpc: Rpc): set<Dataset> {
    match rpc
    case CreateVolume(id, _, _, _) => {Volume(id)}
    case CreateDetachedSnapshot(source, name) => {Container(source), Copy(source, name)}
    case _ => {}
  }

  function Removed(rpc: Rpc): set<Dataset> {
    match rpc
    case DeleteVolume(id, _, _) => {Volume(id)}
    case DeleteDetachedSnapshot(source, name) => {Container(source), Copy(source, name)}
    case _ => {}
  }

  // Everything else stays, and nothing changes its origin.
  predicate Moves(h: Heap, g: Heap, added: set<Dataset>, removed: set<Dataset>) {
    && (forall d | d in h.datasets && d !in removed :: d in g.datasets)
    && (forall d | d in g.datasets && d !in added :: d in h.datasets)
    && (forall d | d in g.datasets && d in h.datasets :: g.datasets[d].origin == h.datasets[d].origin)
  }

  lemma FilledMoves(h: Heap, s: Snap, id: string, detached: bool, always: bool)
    ensures Moves(h, Filled(h, s, id, detached, always).0, {Volume(id)}, {})
  {
  }

  lemma CreatedMoves(h: Heap, id: string, content: Source, detached: bool)
    ensures Moves(h, Created(h, id, content, detached).0, {Volume(id)}, {})
  {
    if content != Blank {
      var s := SourceSnap(id, content);
      FilledMoves(h, s, id, detached, false);
      var t := Snapshot(h, s, false).heap;
      FilledMoves(t, s, id, detached, content.FromVolume?);
      var r := Filled(t, s, id, detached, content.FromVolume?).0;
      SnapshotsOnly(h, t, r, DestroySnapshot(r, s).heap, {Volume(id)}, {});
    }
  }

  lemma SnapshotsOnly(h: Heap, t: Heap, r: Heap, g: Heap, added: set<Dataset>, removed: set<Dataset>)
    requires t.datasets == h.datasets && Moves(t, r, added, removed) && g.datasets == r.datasets
    ensures Moves(h, r, added, removed) && Moves(h, g, added, removed)
  {
  }

  lemma DeletedMoves(h: Heap, id: string, ignoreForeign: bool)
    ensures Moves(h, Deleted(h, id, ignoreForeign).0, {}, {Volume(id)})
  {
  }

  lemma CopiedMoves(h: Heap, source: string, name: string)
    ensures Moves(h, Copied(h, source, name).0, {Container(source), Copy(source, name)}, {})
  {
    var s, d := Snap(Volume(source), DETACHED_PREFIX + name), Copy(source, name);
    var g := Create(h, Container(source), false).heap;
    assert Moves(h, g, {Container(source), d}, {});
    var t := Snapshot(g, s, false).heap;
    var u := SendReceive(t, s, d);
    var w := if u.outcome == Done then SetManaged(u.heap, d) else u.heap;
    assert Moves(h, w, {Container(source), d}, {});
    var x := DestroySnapshot(w, Snap(d, s.name)).heap;
    assert x.datasets == w.datasets && DestroySnapshot(x, s).heap.datasets == w.datasets;
  }

  lemma CopyDeletedMoves(h: Heap, source: string, name: string)
    ensures Moves(h, CopyDeleted(h, source, name).0, {}, {Container(source), Copy(source, name)})
  {
    var g := Destroy(h, Copy(source, name)).heap;
    assert Moves(h, g, {}, {Container(source), Copy(source, name)});
    var e := DestroyAllSnapshots(g, Container(source)).heap;
    assert e.datasets == g.datasets;
    assert Moves(e, DestroyContainer(e, source).heap, {}, {Container(source)});
  }

  lemma StepMoves(h: Heap, rpc: Rpc)
    ensures Moves(h, Step(h, rpc).0, Added(rpc), Removed(rpc))
  {
    match rpc
    case CreateVolume(id, content, detached, _) => CreatedMoves(h, id, content, detached);
    case DeleteVolume(id, _, ignoreForeign) => DeletedMoves(h, id, ignoreForeign);
    case CreateDetachedSnapshot(source, name) => CopiedMoves(h, source, name);
    case DeleteDetachedSnapshot(source, name) => CopyDeletedMoves(h, source, name);
    case _ =>
  }

  /** Whatever the call, no volume or copy with a dependent clone is destroyed. */
  lemma DependentsSurvive(h: Heap, rpc: Rpc, d: Dataset)
    requires d in h.datasets && HasDependents(h, d) && !d.Container?
    ensures d in Step(h, rpc).0.datasets
    ensures WellFormed(h) && rpc.DeleteVolume? && d == Volume(rpc.id) && !rpc.retain ==>
              Step(h, rpc).1 == FailedPrecondition
    ensures rpc.DeleteDetachedSnapshot? && d == Copy(rpc.source, rpc.name) ==> Step(h, rpc).1 == Failed
  {
    StepMoves(h, rpc);
    if rpc.DeleteVolume? && d == Volume(rpc.id) {
      StillDependents(h, d);
    }
  }

  // Releasing the origin frees no dataset of its dependents.
  lemma StillDependents(h: Heap, d: Dataset)
    requires HasDependents(h, d)
    ensures HasDependents(Released(h, d), d)
  {
    var s :| s in h.snaps && s.dataset == d && HasClone(h, s);
    var g := Released(h, d);
    SameClones(h, g);
    assert s in g.snaps;
  }

  // ------------------------------------------- the pool stays well formed ---

  lemma FilledWell(h: Heap, s: Snap, id: string, detached: bool, always: bool)
    requires WellFormed(h)
    ensures WellFormed(Filled(h, s, id, detached, always).0)
  {
    if !detached {
      CloneKeeps(h, s, Volume(id), h.snaps.Keys);
    } else if s in h.snaps {
      FilledPrunes(h, s, id, always);
    }
  }

  lemma CreatedWell(h: Heap, id: string, content: Source, detached: bool)
    requires WellFormed(h)
    ensures WellFormed(Created(h, id, content, detached).0)
  {
    if content == Blank {
      if Volume(id) !in h.datasets {
        NewDatasetKeeps(h, Volume(id), true, h.snaps.Keys);
      }
    } else {
      var s := SourceSnap(id, content);
      FilledWell(h, s, id, detached, false);
      SnapshotKeeps(h, s, false);
      var t := Snapshot(h, s, false).heap;
      FilledWell(t, s, id, detached, content.FromVolume?);
      DroppedFrom(Filled(t, s, id, detached, content.FromVolume?).0, s);
    }
  }

  lemma DestroyedWell(h: Heap, d: Dataset)
    requires WellFormed(h)
    ensures WellFormed(Destroy(h, d).heap)
  {
    if d in h.datasets && !HasDependents(h, d) {
      ReapKeepsOthers(h, d);
    }
  }

  lemma DeletedWell(h: Heap, id: string, ignoreForeign: bool)
    requires WellFormed(h)
    ensures WellFormed(Deleted(h, id, ignoreForeign).0)
  {
    ReleasedWell(h, Volume(id));
    DestroyedWell(Released(h, Volume(id)), Volume(id));
  }

  lemma ReleasedWell(h: Heap, d: Dataset)
    requires WellFormed(h)
    ensures var g := Released(h, d);
            && WellFormed(g) && g.datasets == h.datasets && g.snaps.Keys == h.snaps.Keys
            && (forall s :: HasClone(g, s) <==> HasClone(h, s))
            && (forall s | s in h.snaps :: g.snaps[s].managed == h.snaps[s].managed
                                           && (Some(s) != Origin(h, d) ==> g.snaps[s] == h.snaps[s]))
  {
    if d in h.datasets && h.datasets[d].origin.Some? && IsCloneName(h.datasets[d].origin.value.name) {
      var s := h.datasets[d].origin.value;
      CloneAt(h, s, d);
      DestroySnapshotPrunes(h, s);
      PruneKeeps(h, DestroySnapshot(h, s).heap, h.snaps.Keys);
    }
  }

  function Origin(h: Heap, d: Dataset): Option<Snap> {
    if d in h.datasets then h.datasets[d].origin else None
  }

  lemma ReceivedWell(h: Heap, s: Snap, d: Dataset)
    requires WellFormed(h)
    ensures var u := SendReceive(h, s, d); WellFormed(if u.outcome == Done then SetManaged(u.heap, d) else u.heap)
  {
    var u := SendReceive(h, s, d).heap;
    if s in h.snaps && d !in h.datasets {
      assert forall t, e :: ClonedBy(u, t, e) <==> ClonedBy(h, t, e);
      assert forall t :: HasClone(u, t) <==> HasClone(h, t);
      ManagePrunes(u, d);
      PruneKeeps(u, SetManaged(u, d), u.snaps.Keys);
    }
  }

  lemma CopiedWell(h: Heap, source: string, name: string)
    requires WellFormed(h)
    ensures WellFormed(Copied(h, source, name).0)
  {
    var s, d, c := Snap(Volume(source), DETACHED_PREFIX + name), Copy(source, name), Container(source);
    var g := Create(h, c, false).heap;
    if c !in h.datasets {
      NewDatasetKeeps(h, c, false, h.snaps.Keys);
    }
    SnapshotKeeps(g, s, false);
    var t := Snapshot(g, s, false).heap;
    ReceivedWell(t, s, d);
    var u := SendReceive(t, s, d);
    var w := if u.outcome == Done then SetManaged(u.heap, d) else u.heap;
    DroppedFrom(w, Snap(d, s.name));
    DroppedFrom(DestroySnapshot(w, Snap(d, s.name)).heap, s);
  }

  lemma CopyDeletedWell(h: Heap, source: string, name: string)
    requires WellFormed(h)
    ensures WellFormed(CopyDeleted(h, source, name).0)
  {
    var d, c := Copy(source, name), Container(source);
    DestroyedWell(h, d);
    var g := Destroy(h, d).heap;
    DestroyAllPrunes(g, c);
    var e := DestroyAllSnapshots(g, c).heap;
    PruneKeeps(g, e, g.snaps.Keys);
    ContainerWell(e, source);
  }

  lemma ContainerWell(h: Heap, source: string)
    requires WellFormed(h)
    ensures WellFormed(DestroyContainer(h, source).heap)
  {
    var c := Container(source);
    if c in h.datasets && !HasCopies(h, source) && !HasSnaps(h, c) {
      assert WithoutSnaps(h, c).snaps == h.snaps;
      DestroyedWell(h, c);
    }
  }

  /** Every call, leaking or not, keeps the pool well formed. */
  lemma StepKeepsWell(h: Heap, rpc: Rpc)
    requires WellFormed(h)
    ensures WellFormed(Step(h, rpc).0)
  {
    match rpc
    case CreateVolume(id, content, detached, _) => CreatedWell(h, id, content, detached);
    case DeleteVolume(id, _, ignoreForeign) => DeletedWell(h, id, ignoreForeign);
    case CreateSnapshot(source, name) => SnapshotKeeps(h, Snap(Volume(source), name), true);
    case CreateDetachedSnapshot(source, name) => CopiedWell(h, source, name);
    case DeleteSnapshot(volume, name) => DroppedFrom(h, Snap(Volume(volume), name));
    case DeleteDetachedSnapshot(source, name) => CopyDeletedWell(h, source, name);
  }

  // The dataset has a dependent clone before every call of the run.
  predicate DependedOn(h: Heap, rpcs: seq<Rpc>, d: Dataset)
    decreases |rpcs|
  {
    rpcs == [] || (HasDependents(h, d) && DependedOn(Step(h, rpcs[0]).0, rpcs[1..], d))
  }

  /**
   Over any run, leaking calls included: the pool stays well formed, and a
   volume or copy that has dependents all along is still there.
   */
  lemma {:induction false} RunsKeepDependedOn(h: Heap, rpcs: seq<Rpc>, d: Dataset)
    requires WellFormed(h) && d in h.datasets && !d.Container? && DependedOn(h, rpcs, d)
    ensures WellFormed(Run(h, rpcs)) && d in Run(h, rpcs).datasets
    decreases |rpcs|
  {
    if rpcs != [] {
      StepKeepsWell(h, rpcs[0]);
      DependentsSurvive(h, rpcs[0], d);
      RunsKeepDependedOn(Step(h, rpcs[0]).0, rpcs[1..], d);
    }
  }

  // ------------------------------------------------ runs that name one source ---

  // A clone of a snapshot named after a volume is that volume.
  ghost predicate OwnClone(h: Heap, d: Dataset)
    requires d in h.datasets
  {
    var o := h.datasets[d].origin;
    o.Some? && IsCloneName(o.value.name) ==> d == ClaimedBy(o.value.name)
  }

  ghost predicate OwnClones(h: Heap) {
    forall d | d in h.datasets :: OwnClone(h, d)
  }

  // A new volume is made a clone of a snapshot named after another one.
  predicate Adopts(h: Heap, rpc: Rpc) {
    && rpc.CreateVolume? && rpc.content.FromSnapshot? && !rpc.detached
    && Volume(rpc.id) !in h.datasets && SourceSnap(rpc.id, rpc.content) in h.snaps
    && IsCloneName(rpc.content.name) && ClaimedBy(rpc.content.name) != Volume(rpc.id)
  }

  // The origin of what a call adds.
  function MadeFrom(rpc: Rpc): Option<Snap> {
    if rpc.CreateVolume? && rpc.content != Blank && !rpc.detached then Some(SourceSnap(rpc.id, rpc.content)) else None
  }

  lemma FilledOrigin(h: Heap, s: Snap, id: string, detached: bool, always: bool)
    requires Volume(id) !in h.datasets
    ensures var g := Filled(h, s, id, detached, always).0;
            && (Volume(id) in g.datasets <==> s in h.snaps)
            && (s in h.snaps ==> g.datasets[Volume(id)].origin == if detached then None else Some(s))
  {
  }

  lemma CreatedOrigin(h: Heap, rpc: Rpc)
    requires rpc.CreateVolume? && Volume(rpc.id) !in h.datasets
    ensures var g, d := Step(h, rpc).0, Volume(rpc.id);
            && (d in g.datasets ==> g.datasets[d].origin == MadeFrom(rpc))
            && (rpc.content.FromSnapshot? ==> (d in g.datasets <==> SourceSnap(rpc.id, rpc.content) in h.snaps))
  {
    if rpc.content != Blank {
      var s := SourceSnap(rpc.id, rpc.content);
      FilledOrigin(h, s, rpc.id, rpc.detached, false);
      FilledOrigin(Snapshot(h, s, false).heap, s, rpc.id, rpc.detached, rpc.content.FromVolume?);
    }
  }

  lemma CopiedOrigin(h: Heap, source: string, name: string)
    ensures Bare(h, Copied(h, source, name).0)
  {
    var s, d := Snap(Volume(source), DETACHED_PREFIX + name), Copy(source, name);
    var g := Create(h, Container(source), false).heap;
    var t := Snapshot(g, s, false).heap;
    var u := SendReceive(t, s, d);
    var w := if u.outcome == Done then SetManaged(u.heap, d) else u.heap;
    assert Bare(h, g) && Bare(h, w);
    var x := DestroySnapshot(w, Snap(d, s.name)).heap;
    assert x.datasets == w.datasets && DestroySnapshot(x, s).heap.datasets == w.datasets;
  }

  // What is new is no clone.
  predicate Bare(h: Heap, g: Heap) {
    forall d | d in g.datasets && d !in h.datasets :: g.datasets[d].origin == None
  }

  lemma AddedOrigins(h: Heap, rpc: Rpc)
    ensures var g := Step(h, rpc).0;
            forall d | d in g.datasets && d !in h.datasets :: g.datasets[d].origin == MadeFrom(rpc)
  {
    StepMoves(h, rpc);
    if rpc.CreateVolume? && Volume(rpc.id) !in h.datasets {
      CreatedOrigin(h, rpc);
    } else if rpc.CreateDetachedSnapshot? {
      CopiedOrigin(h, rpc.source, rpc.name);
    }
  }

  /** Exactly when a call makes a volume a clone of what was taken for another. */
  lemma OwnClonesExactly(h: Heap, rpc: Rpc)
    requires OwnClones(h)
    ensures OwnClones(Step(h, rpc).0) <==> !Adopts(h, rpc)
  {
    var g := Step(h, rpc).0;
    StepMoves(h, rpc);
    AddedOrigins(h, rpc);
    forall d | d in g.datasets && d in h.datasets ensures OwnClone(g, d) {
      assert OwnClone(h, d);
    }
    if rpc.CreateVolume? {
      CloneNameOf(rpc.id);
      if Adopts(h, rpc) {
        CreatedOrigin(h, rpc);
        assert !OwnClone(g, Volume(rpc.id));
      }
    }
  }

  // Then no snapshot outlives its volume.
  lemma OwnClonesAreNotOutlived(h: Heap, id: string, ignoreForeign: bool)
    requires OwnClones(h)
    ensures !Outlived(h, id, ignoreForeign)
  {
    CloneNameOf(id);
    assert forall e | e in h.datasets :: OwnClone(h, e);
  }

  // Each volume name is only ever requested from one source, cloned when the
  // source is a volume or a detached snapshot, and no name imitates those of
  // the driver's own snapshots.
  predicate Consistent(sources: map<string, Source>, rpc: Rpc) {
    match rpc
    case CreateVolume(id, content, detached, _) =>
      && id in sources && sources[id] == content
      && (content.FromVolume? || content.FromCopy? ==> !detached)
      && (content.FromSnapshot? ==> !IsCloneName(content.name))
    case CreateSnapshot(_, name) => !IsCloneName(name)
    case _ => true
  }

  predicate OfItsSource(h: Heap, sources: map<string, Source>, d: Dataset)
    requires d in h.datasets
  {
    d.Volume? ==> d.id in sources
                  && (sources[d.id].FromVolume? ==> h.datasets[d].origin == Some(SourceSnap(d.id, sources[d.id])))
  }

  predicate FromTheirSources(h: Heap, sources: map<string, Source>) {
    forall d | d in h.datasets :: OfItsSource(h, sources, d)
  }

  lemma ConsistentStep(h: Heap, sources: map<string, Source>, rpc: Rpc)
    requires OwnClones(h) && FromTheirSources(h, sources) && Consistent(sources, rpc)
    ensures !Leaks(h, rpc) && !Adopts(h, rpc) && FromTheirSources(Step(h, rpc).0, sources)
  {
    if rpc.CreateVolume? && Volume(rpc.id) in h.datasets {
      assert OfItsSource(h, sources, Volume(rpc.id));
    } else if rpc.DeleteVolume? {
      OwnClonesAreNotOutlived(h, rpc.id, rpc.ignoreForeign);
    }
    SourcesKept(h, sources, rpc);
  }

  lemma SourcesKept(h: Heap, sources: map<string, Source>, rpc: Rpc)
    requires FromTheirSources(h, sources) && Consistent(sources, rpc)
    ensures FromTheirSources(Step(h, rpc).0, sources)
  {
    StepMoves(h, rpc);
    AddedOrigins(h, rpc);
    var g := Step(h, rpc).0;
    forall d | d in g.datasets ensures OfItsSource(g, sources, d) {
      if d in h.datasets {
        assert OfItsSource(h, sources, d);
      }
    }
  }

  /** From an empty pool, runs that keep to one source per name leak nothing. */
  lemma {:induction false} ConsistentRuns(h: Heap, sources: map<string, Source>, rpcs: seq<Rpc>)
    requires Inv(h) && OwnClones(h) && FromTheirSources(h, sources) && forall r | r in rpcs :: Consistent(sources, r)
    ensures Harmless(h, rpcs) && Inv(Run(h, rpcs)) && OwnClones(Run(h, rpcs))
    decreases |rpcs|
  {
    if rpcs != [] {
      assert rpcs[0] in rpcs;
      ConsistentStep(h, sources, rpcs[0]);
      LeaksExactly(h, rpcs[0]);
      OwnClonesExactly(h, rpcs[0]);
      ConsistentRuns(Step(h, rpcs[0]).0, sources, rpcs[1..]);
    }
  }

  lemma EmptyPool(sources: map<string, Source>)
    ensures Inv(EMPTY) && OwnClones(EMPTY) && FromTheirSources(EMPTY, sources)
  {
  }

  // ------------------------------------------------ repeating and undoing ---

  // A volume just filled by send and receive has no snapshots; the others stay.
  lemma FilledSettles(h: Heap, s: Snap, id: string, always: bool)
    requires WellFormed(h) && Filled(h, s, id, true, always).1 == Ok
    ensures var d, g := Volume(id), Filled(h, s, id, true, always).0;
            d in g.datasets && (always ==> g.datasets[d].managed) && g.snaps == WithoutSnaps(h, d).snaps
  {
    var d := Volume(id);
    if d !in h.datasets {
      FreshCopy(h, s, id, always);
      assert WithoutSnaps(h, d).snaps == h.snaps;
    } else {
      ManagePrunes(h, d);
      var g := if always then SetManaged(h, d) else h;
      if !HasSnaps(g, d) {
        assert WithoutSnaps(h, d).snaps == h.snaps;
      }
    }
  }

  lemma FilledAgain(g: Heap, s: Snap, id: string, always: bool)
    requires WellFormed(g) && s in g.snaps
    requires var d := Volume(id); d in g.datasets && (always ==> g.datasets[d].managed) && !HasDependents(g, d)
    ensures Filled(g, s, id, true, always) == (WithoutSnaps(g, Volume(id)), Ok)
  {
    var d := Volume(id);
    if always {
      assert SetManaged(g, d).datasets == g.datasets;
    }
    if !HasSnaps(g, d) {
      assert WithoutSnaps(g, d).snaps == g.snaps;
    }
  }

  // Taking a snapshot that was dropped, emptying a dataset that has none, and
  // dropping the snapshot again.
  lemma DropAfterEmptying(g: Heap, s: Snap, d: Dataset)
    requires WellFormed(g) && s.dataset in g.datasets && !HasSnaps(g, d)
    requires s in g.snaps ==> g.snaps[s].deferred
    ensures DestroySnapshot(WithoutSnaps(Snapshot(g, s, false).heap, d), s).heap == g
  {
    var t := Snapshot(g, s, false).heap;
    var r := WithoutSnaps(t, d);
    if s.dataset == d {
      assert r.snaps == g.snaps;
    } else {
      assert r.snaps == t.snaps;
      TakeAndDrop(g, s);
    }
  }

  lemma TakeAndDrop(g: Heap, s: Snap)
    requires WellFormed(g) && s.dataset in g.datasets && (s in g.snaps ==> g.snaps[s].deferred)
    ensures DestroySnapshot(Snapshot(g, s, false).heap, s).heap == g
  {
    var t := Snapshot(g, s, false).heap;
    SameClones(g, t);
    assert DestroySnapshot(t, s).heap.snaps == g.snaps;
  }

  lemma TemporaryAgain(g: Heap, s: Snap, id: string, always: bool)
    requires WellFormed(g) && s.dataset in g.datasets
    requires var d := Volume(id); d in g.datasets && (always ==> g.datasets[d].managed) && !HasSnaps(g, d)
    requires s in g.snaps ==> g.snaps[s].deferred
    ensures var r := Filled(Snapshot(g, s, false).heap, s, id, true, always);
            r.1 == Ok && DestroySnapshot(r.0, s).heap == g
  {
    SnapshotKeeps(g, s, false);
    SameDependents(g, s, Volume(id));
    FilledAgain(Snapshot(g, s, false).heap, s, id, always);
    DropAfterEmptying(g, s, Volume(id));
  }

  lemma DroppedFrom(r: Heap, s: Snap)
    requires WellFormed(r)
    ensures var g := DestroySnapshot(r, s).heap;
            && WellFormed(g) && g.datasets == r.datasets && g.snaps.Keys <= r.snaps.Keys
            && (s in g.snaps ==> g.snaps[s].deferred)
  {
    DestroySnapshotPrunes(r, s);
    PruneKeeps(r, DestroySnapshot(r, s).heap, r.snaps.Keys);
  }

  lemma FilledThenDropped(t: Heap, s: Snap, id: string, always: bool)
    requires WellFormed(t) && s in t.snaps && Filled(t, s, id, true, always).1 == Ok
    ensures var d, g := Volume(id), DestroySnapshot(Filled(t, s, id, true, always).0, s).heap;
            && WellFormed(g) && s.dataset in g.datasets
            && d in g.datasets && (always ==> g.datasets[d].managed) && !HasSnaps(g, d)
            && (s in g.snaps ==> g.snaps[s].deferred)
  {
    FilledSettles(t, s, id, always);
    FilledPrunes(t, s, id, always);
    DroppedFrom(Filled(t, s, id, true, always).0, s);
  }

  lemma RepeatDetached(h: Heap, id: string, content: Source)
    requires WellFormed(h) && Created(h, id, content, true).1 == Ok && (content.FromVolume? || content.FromCopy?)
    ensures var g := Created(h, id, content, true).0; Created(g, id, content, true) == (g, Ok)
  {
    var s, always := SourceSnap(id, content), content.FromVolume?;
    var t := Snapshot(h, s, false).heap;
    SnapshotKeeps(h, s, false);
    FilledThenDropped(t, s, id, always);
    TemporaryAgain(DestroySnapshot(Filled(t, s, id, true, always).0, s).heap, s, id, always);
  }

  lemma FilledPrunes(h: Heap, s: Snap, id: string, always: bool)
    requires WellFormed(h) && s in h.snaps
    ensures WellFormed(Filled(h, s, id, true, always).0)
    ensures forall d | d in h.datasets :: d in Filled(h, s, id, true, always).0.datasets
  {
    var d := Volume(id);
    if d !in h.datasets {
      FreshCopy(h, s, id, always);
      NewDatasetKeeps(h, d, true, h.snaps.Keys);
    } else {
      var g := if always then SetManaged(h, d) else h;
      ManagePrunes(h, d);
      if always {
        PruneKeeps(h, g, h.snaps.Keys);
      }
      DestroyAllPrunes(g, d);
      PruneKeeps(g, DestroyAllSnapshots(g, d).heap, h.snaps.Keys);
    }
  }

  lemma DropAgain(r: Heap, s: Snap)
    requires WellFormed(r) && s in r.snaps
    ensures var g := DestroySnapshot(r, s).heap;
            s.dataset in g.datasets && DestroySnapshot(Snapshot(g, s, false).heap, s).heap == g
  {
    DroppedFrom(r, s);
    TakeAndDrop(DestroySnapshot(r, s).heap, s);
  }

  lemma RepeatClone(h: Heap, id: string, content: Source)
    requires WellFormed(h) && Created(h, id, content, false).1 == Ok && (content.FromVolume? || content.FromCopy?)
    ensures var g := Created(h, id, content, false).0; Created(g, id, content, false) == (g, Ok)
  {
    var s, d := SourceSnap(id, content), Volume(id);
    var t := Snapshot(h, s, false).heap;
    SnapshotKeeps(h, s, false);
    CloneKeeps(t, s, d, t.snaps.Keys);
    var r := Clone(t, s, d).heap;
    assert s in r.snaps && d in r.datasets;
    if content.FromCopy? {
      DropAgain(r, s);
    }
  }

  lemma RepeatFromSnapshot(h: Heap, s: Snap, id: string)
    requires WellFormed(h) && Filled(h, s, id, true, false).1 == Ok
    ensures var g := Filled(h, s, id, true, false).0;
            Filled(g, s, id, true, false) == (g, Ok) <==> s.dataset != Volume(id)
  {
    FilledSettles(h, s, id, false);
    FilledPrunes(h, s, id, false);
    var g := Filled(h, s, id, true, false).0;
    assert !HasSnaps(g, Volume(id));
    if s.dataset != Volume(id) {
      FilledAgain(g, s, id, false);
      assert WithoutSnaps(g, Volume(id)).snaps == g.snaps;
    }
  }

  /**
   A request that succeeded can be repeated at once, and nothing changes; only
   a volume replaced by a copy of its own snapshot has lost that snapshot.
   */
  lemma RepeatChangesNothing(h: Heap, id: string, content: Source, detached: bool)
    requires WellFormed(h) && Created(h, id, content, detached).1 == Ok
    ensures var g := Created(h, id, content, detached).0;
            && (Created(g, id, content, detached) == (g, Ok)
                <==> !(detached && content.FromSnapshot? && content.volume == id))
  {
    match content
    case Blank =>
    case FromSnapshot(_, _) =>
      if detached {
        RepeatFromSnapshot(h, SourceSnap(id, content), id);
      }
    case _ =>
      if detached {
        RepeatDetached(h, id, content);
      } else {
        RepeatClone(h, id, content);
      }
  }

  /**
   Later is another matter: a detached request for a volume that is there
   destroys the snapshots taken of it since, those made by CreateSnapshot
   included.
   */
  lemma RepeatWipesSnapshots(h: Heap, id: string, content: Source)
    requires WellFormed(h) && content != Blank && Created(h, id, content, true).1 == Ok
    ensures !HasSnaps(Created(h, id, content, true).0, Volume(id))
  {
    var s := SourceSnap(id, content);
    if content.FromSnapshot? {
      FilledSettles(h, s, id, false);
    } else {
      SnapshotKeeps(h, s, false);
      FilledThenDropped(Snapshot(h, s, false).heap, s, id, content.FromVolume?);
    }
  }

  // The snapshots of a volume that are not the one taken for itself.
  predicate OtherSnap(h: Heap, id: string, s: Snap) {
    s in h.snaps && s.dataset == Volume(id) && s.name != CLONE_PREFIX + id
  }

  // There is something to make the volume from.
  predicate SourceThere(h: Heap, id: string, content: Source)
    requires content != Blank
  {
    var s := SourceSnap(id, content);
    if content.FromSnapshot? then s in h.snaps else s.dataset in h.datasets
  }

  // The requests that empty a volume that is there.
  predicate Wipes(h: Heap, id: string, content: Source, detached: bool, fits: bool) {
    && fits && detached && content != Blank && SourceThere(h, id, content)
    && !HasDependents(h, Volume(id)) && exists s | s in h.snaps :: OtherSnap(h, id, s)
  }

  /**
   Exactly when a request for a volume that is there destroys snapshots of it:
   it is detached, passes the size check, has a source that is there, and the
   volume has snapshots but no dependent clone. The snapshot named after the
   volume itself does not count.
   */
  lemma WipesExactly(h: Heap, id: string, content: Source, detached: bool, fits: bool)
    requires WellFormed(h) && Volume(id) in h.datasets
    ensures var g := Step(h, CreateVolume(id, content, detached, fits)).0;
            (exists s | s in h.snaps :: OtherSnap(h, id, s) && s !in g.snaps) <==> Wipes(h, id, content, detached, fits)
  {
    if fits && content != Blank && SourceThere(h, id, content) {
      if !detached {
        CloneKeepsOthers(h, id, content);
      } else if HasDependents(h, Volume(id)) {
        RefusedCopyKeeps(h, id, content);
      } else {
        CopySucceeds(h, id, content);
        RepeatWipesSnapshots(h, id, content);
      }
    }
  }

  lemma CloneKeepsOthers(h: Heap, id: string, content: Source)
    requires WellFormed(h) && Volume(id) in h.datasets && content != Blank
    ensures forall s | OtherSnap(h, id, s) :: s in Created(h, id, content, false).0.snaps
  {
  }

  lemma RefusedFillKeeps(h: Heap, s: Snap, id: string, always: bool)
    requires WellFormed(h) && s in h.snaps && Volume(id) in h.datasets && HasDependents(h, Volume(id))
    ensures var r := Filled(h, s, id, true, always); r.1 == Failed && r.0.snaps == h.snaps
  {
    ManagePrunes(h, Volume(id));
  }

  lemma RefusedCopyKeeps(h: Heap, id: string, content: Source)
    requires WellFormed(h) && Volume(id) in h.datasets && content != Blank && HasDependents(h, Volume(id))
    requires SourceThere(h, id, content)
    ensures forall s | s in h.snaps :: s in Created(h, id, content, true).0.snaps
  {
    var s := SourceSnap(id, content);
    if content.FromSnapshot? {
      RefusedFillKeeps(h, s, id, false);
    } else {
      SameDependents(h, s, Volume(id));
      SnapshotKeeps(h, s, false);
      RefusedFillKeeps(Snapshot(h, s, false).heap, s, id, content.FromVolume?);
    }
  }

  lemma CopySucceeds(h: Heap, id: string, content: Source)
    requires WellFormed(h) && Volume(id) in h.datasets && content != Blank && SourceThere(h, id, content)
    requires !HasDependents(h, Volume(id))
    ensures Created(h, id, content, true).1 == Ok
  {
    var s, d := SourceSnap(id, content), Volume(id);
    SameDependents(h, s, d);
    ManagePrunes(h, d);
    SnapshotKeeps(h, s, false);
    ManagePrunes(Snapshot(h, s, false).heap, d);
  }

  // A pool with two volumes and a snapshot of the second.
  function TwoVolumes(): Heap {
    Heap(map[Volume("a") := Info(None, true), Volume("x") := Info(None, true)],
         map[Snap(Volume("x"), "daily") := SnapInfo(false, true)])
  }

  // A snapshot taken of a copy is gone once the copy is requested again.
  lemma RepeatedCopyWipes()
    ensures var copy := CreateVolume("x", FromVolume("a"), true, true);
            var h := Run(EMPTY, [CreateVolume("a", Blank, false, true), copy, CreateSnapshot("x", "daily")]);
            Snap(Volume("x"), "daily") in h.snaps && Snap(Volume("x"), "daily") !in Step(h, copy).0.snaps
  {
    var copy, daily := CreateVolume("x", FromVolume("a"), true, true), Snap(Volume("x"), "daily");
    var h0 := Step(EMPTY, CreateVolume("a", Blank, false, true)).0;
    EmptyPool(map[]);
    LeaksExactly(EMPTY, CreateVolume("a", Blank, false, true));
    FreshFromBlank(h0);
    var h1 := Step(h0, copy).0;
    var h2 := Step(h1, CreateSnapshot("x", "daily")).0;
    RunThree(EMPTY, CreateVolume("a", Blank, false, true), copy, CreateSnapshot("x", "daily"));
    assert h2 == TwoVolumes();
    TwoVolumesWiped();
  }

  lemma TwoVolumesWiped()
    ensures Snap(Volume("x"), "daily") !in Step(TwoVolumes(), CreateVolume("x", FromVolume("a"), true, true)).0.snaps
  {
    var h := TwoVolumes();
    assert WellFormed(h) && !HasDependents(h, Volume("x"));
    CopySucceeds(h, "x", FromVolume("a"));
    RepeatWipesSnapshots(h, "x", FromVolume("a"));
  }

  lemma RunThree(h: Heap, r0: Rpc, r1: Rpc, r2: Rpc)
    ensures Run(h, [r0, r1, r2]) == Step(Step(Step(h, r0).0, r1).0, r2).0
  {
    assert [r0, r1, r2][1..] == [r1, r2];
    assert [r1, r2][1..] == [r2];
    assert [r2][1..] == [];
    assert Run(Step(Step(h, r0).0, r1).0, [r2]) == Step(Step(Step(h, r0).0, r1).0, r2).0;
  }

  // g is h with a volume that has nothing of its own, made from a snapshot (or
  // from nothing).
  ghost predicate JustAdds(h: Heap, g: Heap, d: Dataset, origin: Option<Snap>) {
    && d !in h.datasets && g.datasets == h.datasets[d := Info(origin, true)]
    && (forall s | Some(s) != origin :: (s in g.snaps <==> s in h.snaps) && (s in h.snaps ==> g.snaps[s] == h.snaps[s]))
    && (origin.Some? ==>
          && origin.value in g.snaps && origin.value.dataset in h.datasets
          && (origin.value in h.snaps ==> g.snaps[origin.value] == h.snaps[origin.value]))
  }

  // Taking the dataset, and a snapshot made for it, away again.
  lemma JustAddsUndone(h: Heap, g: Heap, d: Dataset, origin: Option<Snap>)
    requires JustAdds(h, g, d, origin)
    ensures g.datasets - {d} == h.datasets
    ensures g.snaps - (if origin.Some? && origin.value !in h.snaps then {origin.value} else {}) == h.snaps
  {
    assert origin.Some? ==> Some(origin.value) == origin;
  }

  lemma DestroyNew(h: Heap, g: Heap, d: Dataset, origin: Option<Snap>)
    requires WellFormed(h) && JustAdds(h, g, d, origin)
    requires origin.Some? && origin.value !in h.snaps ==> g.snaps[origin.value].deferred
    ensures !HasSnaps(g, d) && Destroy(g, d) == Result(h, Done)
  {
    assert WithoutSnaps(g, d).snaps == g.snaps;
    var x := g.(datasets := g.datasets - {d});
    JustAddsUndone(h, g, d, origin);
    SameClones(h, x);
    if origin.Some? && origin.value !in h.snaps {
      AbsentHasNoClone(h, origin.value);
    }
  }

  lemma DeleteNew(h: Heap, g: Heap, id: string, origin: Option<Snap>, ignoreForeign: bool)
    requires Inv(h) && JustAdds(h, g, Volume(id), origin)
    requires origin.Some? ==> (IsCloneName(origin.value.name) <==> origin.value !in h.snaps)
    ensures Deleted(g, id, ignoreForeign) == (h, Ok)
  {
    if origin.Some? {
      CloneAt(g, origin.value, Volume(id));
    }
    DestroyNew(h, Released(g, Volume(id)), Volume(id), origin);
  }

  lemma NewSnapshotIsNew(h: Heap, id: string, content: Source)
    requires Inv(h) && Volume(id) !in h.datasets && (content.FromVolume? || content.FromCopy?)
    ensures SourceSnap(id, content) !in h.snaps && !HasClone(h, SourceSnap(id, content))
    ensures IsCloneName(SourceSnap(id, content).name)
  {
    CloneNameOf(id);
    assert forall x | x in h.snaps :: Accounted(h, x);
    AbsentHasNoClone(h, SourceSnap(id, content));
  }

  // A new volume made by send and receive leaves only itself.
  lemma NewCopy(h: Heap, id: string, content: Source)
    requires Inv(h) && Volume(id) !in h.datasets && content != Blank && Created(h, id, content, true).1 == Ok
    ensures Created(h, id, content, true).0 == h.(datasets := h.datasets[Volume(id) := Info(None, true)])
  {
    var s := SourceSnap(id, content);
    if content.FromSnapshot? {
      FreshCopy(h, s, id, false);
    } else {
      NewSnapshotIsNew(h, id, content);
      SnapshotKeeps(h, s, false);
      FreshCopy(Snapshot(h, s, false).heap, s, id, content.FromVolume?);
      TakenAndDropped(h, s, Volume(id));
    }
  }

  // A snapshot taken before a dataset is added and dropped after.
  lemma TakenAndDropped(h: Heap, s: Snap, d: Dataset)
    requires WellFormed(h) && s.dataset in h.datasets && s !in h.snaps && d !in h.datasets
    ensures var t, ds := Snapshot(h, s, false).heap, h.datasets[d := Info(None, true)];
            DestroySnapshot(t.(datasets := ds), s).heap == h.(datasets := ds)
  {
    AbsentHasNoClone(h, s);
    var r := Snapshot(h, s, false).heap.(datasets := h.datasets[d := Info(None, true)]);
    assert !HasClone(r, s);
    assert r.snaps - {s} == h.snaps;
  }

  lemma DeleteNewClone(h: Heap, id: string, content: Source, ignoreForeign: bool)
    requires Inv(h) && Volume(id) !in h.datasets && content != Blank && Created(h, id, content, false).1 == Ok
    requires content.FromSnapshot? ==> !IsCloneName(content.name)
    ensures Deleted(Created(h, id, content, false).0, id, ignoreForeign) == (h, Ok)
  {
    var s, g := SourceSnap(id, content), Created(h, id, content, false).0;
    if !content.FromSnapshot? {
      NewSnapshotIsNew(h, id, content);
    }
    CloneAt(Clone(Snapshot(h, s, false).heap, s, Volume(id)).heap, s, Volume(id));
    DeleteNew(h, g, id, Some(s), ignoreForeign);
  }

  // Deleting a volume that was made a clone of a snapshot named after another:
  // only that snapshot is not as it was, it waits for its last clone now.
  lemma DeleteAdopted(h: Heap, id: string, content: Source, ignoreForeign: bool)
    requires Inv(h) && Adopts(h, CreateVolume(id, content, false, true))
    ensures Deleted(Created(h, id, content, false).0, id, ignoreForeign)
         == (DestroySnapshot(h, SourceSnap(id, content)).heap, Ok)
  {
    var s, d := SourceSnap(id, content), Volume(id);
    assert Accounted(h, s);
    CloneAt(h, s, ClaimedBy(s.name));
    var was, g := DestroySnapshot(h, s).heap, Created(h, id, content, false).0;
    CloneAt(g, s, d);
    DroppedFrom(h, s);
    DestroyNew(was, Released(g, d), d, Some(s));
  }

  /**
   Creating a volume and deleting it gives back the pool exactly as it was,
   from any source and in either mode; except that a snapshot named after
   another volume, cloned like any other, is left waiting for its last clone
   if it was not already.
   */
  lemma CreateThenDelete(h: Heap, id: string, content: Source, detached: bool, fits: bool, ignoreForeign: bool)
    requires Inv(h) && Volume(id) !in h.datasets && Step(h, CreateVolume(id, content, detached, fits)).1 == Ok
    ensures var rpc := CreateVolume(id, content, detached, fits);
            var r := Step(Step(h, rpc).0, DeleteVolume(id, false, ignoreForeign));
            && r.1 == Ok
            && r.0 == (if Adopts(h, rpc) then DestroySnapshot(h, SourceSnap(id, content)).heap else h)
            && (r.0 == h <==> !(Adopts(h, rpc) && !h.snaps[SourceSnap(id, content)].deferred))
  {
    if content == Blank {
      DeleteNew(h, Created(h, id, content, detached).0, id, None, ignoreForeign);
    } else if detached {
      NewCopy(h, id, content);
      DeleteNew(h, Created(h, id, content, true).0, id, None, ignoreForeign);
    } else if content.FromSnapshot? && IsCloneName(content.name) {
      assert Accounted(h, SourceSnap(id, content));
      AdoptedIsDeferred(h, id, content, detached, fits);
      DeleteAdopted(h, id, content, ignoreForeign);
    } else {
      DeleteNewClone(h, id, content, ignoreForeign);
    }
  }

  lemma AdoptedIsDeferred(h: Heap, id: string, content: Source, detached: bool, fits: bool)
    requires Inv(h) && Adopts(h, CreateVolume(id, content, detached, fits))
    ensures var s := SourceSnap(id, content);
            DestroySnapshot(h, s).heap == h <==> h.snaps[s].deferred
  {
    var s := SourceSnap(id, content);
    assert Accounted(h, s);
    CloneAt(h, s, ClaimedBy(s.name));
    assert h.snaps[s].deferred ==> DestroySnapshot(h, s).heap.snaps == h.snaps;
  }

  /**
   DeleteVolume refuses exactly when the volume has dependent clones or
   snapshots that count as managed; a refusal takes nothing away.
   */
  lemma DeleteRefusesExactly(h: Heap, id: string, ignoreForeign: bool)
    requires WellFormed(h)
    ensures var r, d := Deleted(h, id, ignoreForeign), Volume(id);
            && (r.1 == Ok <==> d !in h.datasets || !(HasManagedSnapshots(h, d, ignoreForeign) || HasDependents(h, d)))
            && (r.1 != Ok ==> r.1 == FailedPrecondition && r.0.datasets == h.datasets && r.0.snaps.Keys == h.snaps.Keys)
  {
    var d := Volume(id);
    ReleasedWell(h, d);
    ReleasedManaged(h, d, ignoreForeign);
    var g := Released(h, d);
    assert HasDependents(g, d) <==> HasDependents(h, d);
  }

  lemma ReleasedManaged(h: Heap, d: Dataset, ignoreForeign: bool)
    requires WellFormed(h)
    ensures HasManagedSnapshots(Released(h, d), d, ignoreForeign) <==> HasManagedSnapshots(h, d, ignoreForeign)
  {
    ReleasedWell(h, d);
  }

  /**
   After a deletion that succeeded, the volume is gone with its snapshots, and
   deleting again does nothing. The snapshot taken for it is gone as well,
   wherever that was, unless it has another clone.
   */
  lemma DeleteIsFinal(h: Heap, id: string, ignoreForeign: bool)
    requires Inv(h) && Deleted(h, id, ignoreForeign).1 == Ok
    ensures var g, d := Deleted(h, id, ignoreForeign).0, Volume(id);
            && d !in g.datasets && !HasSnaps(g, d)
            && ((forall s | s in g.snaps :: s.name != CLONE_PREFIX + id) <==> !Outlived(h, id, ignoreForeign))
            && Deleted(g, id, ignoreForeign) == (g, Ok)
  {
    var g := Deleted(h, id, ignoreForeign).0;
    DeletedIsGone(h, id, ignoreForeign);
    DeletedKeeps(h, id, ignoreForeign);
    CloneNameOf(id);
    if !Outlived(h, id, ignoreForeign) {
      assert forall s | s in g.snaps :: Accounted(g, s);
    } else {
      OutlivedStays(h, id, ignoreForeign);
    }
  }

  lemma DeletedIsGone(h: Heap, id: string, ignoreForeign: bool)
    requires WellFormed(h) && Deleted(h, id, ignoreForeign).1 == Ok
    ensures var g, d := Deleted(h, id, ignoreForeign).0, Volume(id);
            d !in g.datasets && !HasSnaps(g, d)
  {
    ReleasedWell(h, Volume(id));
  }

  lemma OutlivedStays(h: Heap, id: string, ignoreForeign: bool)
    requires WellFormed(h) && Outlived(h, id, ignoreForeign)
    ensures h.datasets[Volume(id)].origin.value in Deleted(h, id, ignoreForeign).0.snaps
  {
    var d := Volume(id);
    var s := h.datasets[d].origin.value;
    CloneNameOf(id);
    ReleasedWell(h, d);
    ReleasedManaged(h, d, ignoreForeign);
    assert HasDependents(Released(h, d), d) <==> HasDependents(h, d);
    OriginGoes(Released(h, d), d, s);
  }

  /**
   What CreateSnapshot reports as made is there; it waits for its last clone
   exactly when it was there before and already waiting.
   */
  lemma SnappedIsThere(h: Heap, source: string, name: string)
    requires WellFormed(h) && Snapped(h, source, name).1 == Ok
    ensures var s, g := Snap(Volume(source), name), Snapped(h, source, name).0;
            s in g.snaps && (g.snaps[s].deferred <==> s in h.snaps && h.snaps[s].deferred)
  {
  }

  // The volume is the only clone of the snapshot.
  ghost predicate OnlyClone(h: Heap, s: Snap, id: string) {
    ClonedBy(h, s, Volume(id)) && forall d | ClonedBy(h, s, d) :: d == Volume(id)
  }

  /**
   Exactly when a snapshot that was reported as made goes with a volume that is
   deleted later: it is a snapshot of that volume, or the volume is its only
   clone and it was already waiting for it, or will be because of its name.
   */
  lemma ReportedSnapshotGoesExactly(h: Heap, source: string, name: string, id: string, ignoreForeign: bool)
    requires WellFormed(h) && Snapped(h, source, name).1 == Ok
    requires Deleted(Snapped(h, source, name).0, id, ignoreForeign).1 == Ok
    ensures var s := Snap(Volume(source), name);
            s !in Deleted(Snapped(h, source, name).0, id, ignoreForeign).0.snaps
            <==> id == source
                 || (OnlyClone(h, s, id) && (IsCloneName(name) || (s in h.snaps && h.snaps[s].deferred)))
  {
    var s, g := Snap(Volume(source), name), Snapped(h, source, name).0;
    SnappedIsThere(h, source, name);
    SnapshotKeeps(h, s, true);
    assert forall d :: ClonedBy(g, s, d) <==> ClonedBy(h, s, d);
    if id == source {
      DeletedIsGone(g, id, ignoreForeign);
    } else {
      GoesExactly(g, s, id, ignoreForeign);
    }
  }

  lemma GoesExactly(h: Heap, s: Snap, id: string, ignoreForeign: bool)
    requires WellFormed(h) && s in h.snaps && s.dataset != Volume(id)
    requires Deleted(h, id, ignoreForeign).1 == Ok
    ensures s !in Deleted(h, id, ignoreForeign).0.snaps
            <==> OnlyClone(h, s, id) && (IsCloneName(s.name) || h.snaps[s].deferred)
  {
    var d := Volume(id);
    var g := Released(h, d);
    ReleasedWell(h, d);
    if ClonedBy(h, s, d) {
      assert g.snaps[s].deferred <==> IsCloneName(s.name) || h.snaps[s].deferred by {
        CloneAt(h, s, d);
      }
      OriginGoes(g, d, s);
      assert forall e :: ClonedBy(g, s, e) <==> ClonedBy(h, s, e);
      assert HasOtherClone(g, s, d) <==> exists e :: ClonedBy(h, s, e) && e != d;
    } else if d in h.datasets {
      ReapKeepsOthers(g, d);
    }
  }

  /**
   Taking a snapshot again that was deleted while it had a clone succeeds, but
   the snapshot still goes when its clone does.
   */
  lemma RecreatedSnapshotStillGoes(h: Heap, source: string, name: string, id: string, ignoreForeign: bool)
    requires var s := Snap(Volume(source), name);
             && WellFormed(h) && s in h.snaps && !NameElsewhere(h, source, name)
             && ClonedBy(h, s, Volume(id)) && (forall d | ClonedBy(h, s, d) :: d == Volume(id))
             && !HasManagedSnapshots(h, Volume(id), ignoreForeign) && !HasDependents(h, Volume(id))
    ensures var s := Snap(Volume(source), name);
            var deleted := Step(h, DeleteSnapshot(source, name)).0;
            var again := Step(deleted, CreateSnapshot(source, name));
            var gone := Step(again.0, DeleteVolume(id, false, ignoreForeign));
            again.1 == Ok && s in again.0.snaps && gone.1 == Ok && s !in gone.0.snaps
  {
    var s, d := Snap(Volume(source), name), Volume(id);
    CloneAt(h, s, d);
    DroppedFrom(h, s);
    var g := DestroySnapshot(h, s).heap;
    SameClones(h, g);
    assert !NameElsewhere(g, source, name) && Step(g, CreateSnapshot(source, name)) == (g, Ok);
    assert HasDependents(g, d) <==> HasDependents(h, d);
    assert forall t | t in h.snaps :: g.snaps[t].managed == h.snaps[t].managed;
    DeleteRefusesExactly(g, id, ignoreForeign);
    GoesExactly(g, s, id, ignoreForeign);
  }

  // A pool with a volume, a snapshot of it and a clone of that.
  function ClonedVolume(): Heap {
    var s := Snap(Volume("a"), "daily");
    Heap(map[Volume("a") := Info(None, true), Volume("x") := Info(Some(s), true)], map[s := SnapInfo(false, true)])
  }

  lemma ClonedVolumeIsReached()
    ensures Run(EMPTY, [CreateVolume("a", Blank, false, true), CreateSnapshot("a", "daily"),
                        CreateVolume("x", FromSnapshot("a", "daily"), false, true)]) == ClonedVolume()
  {
    RunThree(EMPTY, CreateVolume("a", Blank, false, true), CreateSnapshot("a", "daily"),
             CreateVolume("x", FromSnapshot("a", "daily"), false, true));
  }

  lemma NoCloneName(name: string)
    requires name == "daily"
    ensures !IsCloneName(name)
  {
    assert CLONE_PREFIX[0] == 'v';
  }

  // From there: deleted, reported as made again, and gone with the clone.
  lemma RecreatedSnapshotGoes()
    ensures var s, h := Snap(Volume("a"), "daily"), ClonedVolume();
            var again := Step(Step(h, DeleteSnapshot("a", "daily")).0, CreateSnapshot("a", "daily"));
            var gone := Step(again.0, DeleteVolume("x", false, false));
            again.1 == Ok && s in again.0.snaps && gone.1 == Ok && s !in gone.0.snaps
  {
    var s, h := Snap(Volume("a"), "daily"), ClonedVolume();
    NoCloneName("daily");
    CloneAt(h, s, Volume("x"));
    assert WellFormed(h);
    assert !HasManagedSnapshots(h, Volume("x"), false) && !HasDependents(h, Volume("x"));
    RecreatedSnapshotStillGoes(h, "a", "daily", "x", false);
  }

  // A name of the driver's own does the same: reported as made, not waiting,
  // and gone with the volume it is named after.
  lemma NamedSnapshotGoes()
    ensures var s := Snap(Volume("a"), CLONE_PREFIX + "x");
            var h := Step(Step(EMPTY, CreateVolume("a", Blank, false, true)).0,
                          CreateVolume("x", FromVolume("a"), false, true)).0;
            var again := Step(h, CreateSnapshot("a", s.name));
            var gone := Step(again.0, DeleteVolume("x", false, false));
            && again.1 == Ok && s in again.0.snaps && !again.0.snaps[s].deferred
            && gone.1 == Ok && s !in gone.0.snaps
  {
    var r0, r1 := CreateVolume("a", Blank, false, true), CreateVolume("x", FromVolume("a"), false, true);
    var s := Snap(Volume("a"), CLONE_PREFIX + "x");
    var h := Step(Step(EMPTY, r0).0, r1).0;
    StepKeepsWell(EMPTY, r0);
    StepKeepsWell(Step(EMPTY, r0).0, r1);
    CloneNameOf("x");
    assert h.datasets.Keys == {Volume("a"), Volume("x")} && h.snaps == map[s := SnapInfo(false, false)];
    assert ClonedBy(h, s, Volume("x")) && !ClonedBy(h, s, Volume("a"));
    var again := Snapped(h, "a", s.name);
    assert again == (h, Ok);
    DeleteRefusesExactly(h, "x", false);
    ReportedSnapshotGoesExactly(h, "a", s.name, "x", false);
  }

  // ---------------------------------------------------------- what does leak ---

  lemma OtherSourceLeaks()
    ensures !AccountedBut(Run(EMPTY, [CreateVolume("a", Blank, false, true), CreateVolume("b", Blank, false, true),
                                      CreateVolume("x", FromVolume("a"), false, true),
                                      CreateVolume("x", FromVolume("b"), false, true)]), {})
  {
    var r0, r1 := CreateVolume("a", Blank, false, true), CreateVolume("b", Blank, false, true);
    var r2, r3 := CreateVolume("x", FromVolume("a"), false, true), CreateVolume("x", FromVolume("b"), false, true);
    var h0 := Step(EMPTY, r0).0;
    var h1 := Step(h0, r1).0;
    var h2 := Step(h1, r2).0;
    EmptyPool(map[]);
    LeaksExactly(EMPTY, r0);
    LeaksExactly(h0, r1);
    LeaksExactly(h1, r2);
    LeaksExactly(h2, r3);
    RunFour(EMPTY, r0, r1, r2, r3);
    assert h2.datasets[Volume("x")].origin == Some(Snap(Volume("a"), CLONE_PREFIX + "x"));
  }

  lemma RunFour(h: Heap, r0: Rpc, r1: Rpc, r2: Rpc, r3: Rpc)
    ensures Run(h, [r0, r1, r2, r3]) == Step(Step(Step(Step(h, r0).0, r1).0, r2).0, r3).0
  {
    assert [r0, r1, r2, r3][1..] == [r1, r2, r3];
    assert [r1, r2, r3][1..] == [r2, r3];
    assert [r2, r3][1..] == [r3];
    assert [r3][1..] == [];
    var h3 := Step(Step(Step(h, r0).0, r1).0, r2).0;
    assert Run(h3, [r3]) == Step(h3, r3).0;
    assert Run(Step(Step(h, r0).0, r1).0, [r2, r3]) == Run(h3, [r3]);
  }

  lemma CloneOfACopy(h: Heap)
    requires Inv(h) && h.snaps == map[]
    requires h.datasets == map[Volume("a") := Info(None, true), Volume("x") := Info(None, true)]
    ensures var g := Step(h, CreateVolume("y", FromVolume("x"), false, true)).0;
            Inv(g) && Leaks(g, CreateVolume("x", FromVolume("a"), true, true))
  {
    var g := Step(h, CreateVolume("y", FromVolume("x"), false, true)).0;
    LeaksExactly(h, CreateVolume("y", FromVolume("x"), false, true));
    var s := Snap(Volume("x"), CLONE_PREFIX + "y");
    assert s in g.snaps && ClonedBy(g, s, Volume("y"));
  }

  // Even with one source: a copy that has a clone of its own, requested again.
  lemma RepeatedCopyLeaks()
    ensures !AccountedBut(Run(EMPTY, [CreateVolume("a", Blank, false, true),
                                      CreateVolume("x", FromVolume("a"), true, true),
                                      CreateVolume("y", FromVolume("x"), false, true),
                                      CreateVolume("x", FromVolume("a"), true, true)]), {})
  {
    var r0, r1 := CreateVolume("a", Blank, false, true), CreateVolume("x", FromVolume("a"), true, true);
    var r2 := CreateVolume("y", FromVolume("x"), false, true);
    var h0 := Step(EMPTY, r0).0;
    var h1 := Step(h0, r1).0;
    EmptyPool(map[]);
    LeaksExactly(EMPTY, r0);
    LeaksExactly(h0, r1);
    FreshFromBlank(h0);
    CloneOfACopy(h1);
    LeaksExactly(Step(h1, r2).0, r1);
    RunFour(EMPTY, r0, r1, r2, r1);
  }

  // Nor must a request be repeated: a snapshot taken for a volume is cloned once
  // more, by its name, and outlives the volume.
  lemma AdoptedSnapshotLeaks()
    ensures !AccountedBut(Run(EMPTY, [CreateVolume("a", Blank, false, true),
                                      CreateVolume("x", FromVolume("a"), false, true),
                                      CreateVolume("y", FromSnapshot("a", CLONE_PREFIX + "x"), false, true),
                                      DeleteVolume("x", false, false)]), {})
  {
    var r0, r1 := CreateVolume("a", Blank, false, true), CreateVolume("x", FromVolume("a"), false, true);
    var r2 := CreateVolume("y", FromSnapshot("a", CLONE_PREFIX + "x"), false, true);
    var h0 := Step(EMPTY, r0).0;
    var h1 := Step(h0, r1).0;
    var h2 := Step(h1, r2).0;
    EmptyPool(map[]);
    LeaksExactly(EMPTY, r0);
    LeaksExactly(h0, r1);
    LeaksExactly(h1, r2);
    var s := Snap(Volume("a"), CLONE_PREFIX + "x");
    assert h1.snaps.Keys == {s} && h1.datasets.Keys == {Volume("a"), Volume("x")};
    assert h2.snaps == h1.snaps && ClonedBy(h2, s, Volume("y")) && ClonedBy(h2, s, Volume("x"));
    assert Outlived(h2, "x", false);
    LeaksExactly(h2, DeleteVolume("x", false, false));
    RunFour(EMPTY, r0, r1, r2, DeleteVolume("x", false, false));
  }

  lemma FreshFromBlank(h: Heap)
    requires Inv(h) && h == Heap(map[Volume("a") := Info(None, true)], map[])
    ensures Created(h, "x", FromVolume("a"), true).0
         == Heap(map[Volume("a") := Info(None, true), Volume("x") := Info(None, true)], map[])
  {
    var s := SourceSnap("x", FromVolume("a"));
    SnapshotKeeps(h, s, false);
    DetachedKeeps(Snapshot(h, s, false).heap, s, "x", true, {s});
    NewCopy(h, "x", FromVolume("a"));
  }
}
