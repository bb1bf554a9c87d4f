/**
 What each of the controller's calls comes to: when it succeeds, what is there
 afterwards, and that everything else is as it was.
 */
module ZfsOutcomes {
  import opened Wrappers
  import opened ZfsVolumes
  import opened ZfsLifecycle

  // All datasets but these are as they were.
  predicate SameDatasets(h: Heap, g: Heap, but: set<Dataset>) {
    forall d | d in h.datasets.Keys + g.datasets.Keys && d !in but ::
      d in h.datasets && d in g.datasets && g.datasets[d] == h.datasets[d]
  }

  // All snapshots are as they were, but those on these datasets and these.
  predicate SameSnaps(h: Heap, g: Heap, on: set<Dataset>, but: set<Snap>) {
    forall s | s in h.snaps.Keys + g.snaps.Keys && s.dataset !in on && s !in but ::
      s in h.snaps && s in g.snaps && g.snaps[s] == h.snaps[s]
  }

  // A snapshot that was there or was taken has been dropped: it is gone, or waits
  // for a clone.
  predicate Dropped(g: Heap, s: Snap) {
    s in g.snaps ==> g.snaps[s].deferred && HasClone(g, s)
  }

  lemma DropResult(h: Heap, s: Snap)
    requires WellFormed(h)
    ensures var g := DestroySnapshot(h, s).heap;
            && WellFormed(g) && g.datasets == h.datasets && SameSnaps(h, g, {}, {s}) && Dropped(g, s)
            && (s in g.snaps <==> s in h.snaps && HasClone(h, s))
            && (forall t | t in g.snaps :: t in h.snaps)
  {
    DroppedFrom(h, s);
    SameClones(h, DestroySnapshot(h, s).heap);
  }

  // --------------------------------------------------------------- snapshots ---

  /** CreateSnapshot: refused for a name on another volume or a missing volume; else the snapshot is there. */
  lemma SnapshotCreated(h: Heap, source: string, name: string)
    ensures var r, s := Step(h, CreateSnapshot(source, name)), Snap(Volume(source), name);
            && (r.1 == AlreadyExists <==> exists other :: other != source && Snap(Volume(other), name) in h.snaps)
            && (r.1 == FailedPrecondition <==> r.1 != AlreadyExists && Volume(source) !in h.datasets)
            && (r.1 == Ok <==> r.1 != AlreadyExists && Volume(source) in h.datasets)
            && (r.1 != Ok ==> r.0 == h)
            && (r.1 == Ok ==>
                  && s in r.0.snaps && r.0.snaps[s] == (if s in h.snaps then h.snaps[s] else SnapInfo(false, true))
                  && r.0.datasets == h.datasets && SameSnaps(h, r.0, {}, {s}))
  {
    if NameElsewhere(h, source, name) {
      var s :| s in h.snaps && s.dataset.Volume? && s.name == name && s.dataset.id != source;
      assert Snap(Volume(s.dataset.id), name) == s;
    }
  }

  /** DeleteSnapshot: the snapshot is gone, or waits for its clones; a missing one is no error. */
  lemma SnapshotDeleted(h: Heap, volume: string, name: string)
    requires WellFormed(h)
    ensures var r, s := Step(h, DeleteSnapshot(volume, name)), Snap(Volume(volume), name);
            && r.1 == Ok && r.0.datasets == h.datasets && SameSnaps(h, r.0, {}, {s}) && Dropped(r.0, s)
            && (s in r.0.snaps <==> s in h.snaps && HasClone(h, s))
  {
    DropResult(h, Snap(Volume(volume), name));
  }

  // ------------------------------------------------------- detached snapshots ---

  // The copy itself, from a volume that is there.
  lemma CopyMade(h: Heap, s: Snap, d: Dataset)
    requires WellFormed(h) && s in h.snaps
    ensures var w := WithCopy(h, s, d);
            && WellFormed(w) && SameDatasets(h, w, {d}) && SameSnaps(h, w, {}, {Snap(d, s.name)})
            && d in w.datasets && w.datasets[d] == (if d in h.datasets then h.datasets[d] else Info(None, true))
            && (forall t :: HasClone(w, t) <==> HasClone(h, t))
  {
    ReceivedWell(h, s, d);
    var w := WithCopy(h, s, d);
    assert forall t, e :: ClonedBy(w, t, e) <==> ClonedBy(h, t, e);
  }

  lemma ContainerMade(h: Heap, source: string)
    requires WellFormed(h)
    ensures var c := Container(source);
            var g := Create(h, c, false).heap;
            && WellFormed(g) && SameDatasets(h, g, {c}) && g.snaps == h.snaps
            && g.datasets[c] == (if c in h.datasets then h.datasets[c] else Info(None, false))
            && (forall t :: HasClone(g, t) <==> HasClone(h, t))
  {
    if Container(source) !in h.datasets {
      NewDatasetKeeps(h, Container(source), false, h.snaps.Keys);
    }
  }

  /**
   CreateDetachedSnapshot: succeeds exactly when no other volume has a copy of
   that name and the volume is there; then the copy is there, whole and of its
   own, and both temporary snapshots are dropped.
   */
  lemma CopyCreated(h: Heap, source: string, name: string)
    requires WellFormed(h)
    ensures var r, d := Step(h, CreateDetachedSnapshot(source, name)), Copy(source, name);
            && (r.1 == AlreadyExists <==> exists other :: other != source && Copy(other, name) in h.datasets)
            && (r.1 == FailedPrecondition <==> r.1 != AlreadyExists && Volume(source) !in h.datasets)
            && (r.1 == Ok <==> r.1 != AlreadyExists && Volume(source) in h.datasets)
            && (r.1 == AlreadyExists ==> r.0 == h)
            && (r.1 == FailedPrecondition ==> SameDatasets(h, r.0, {Container(source)}) && r.0.snaps == h.snaps)
            && (r.1 == Ok ==> CopyThere(h, r.0, source, name))
  {
    if CopyElsewhere(h, source, name) {
      var d :| d in h.datasets && d.Copy? && d.name == name && d.source != source;
      assert Copy(d.source, name) == d;
    } else {
      ContainerMade(h, source);
      if Volume(source) in h.datasets {
        CopySteps(h, source, name);
      }
    }
  }

  predicate CopyThere(h: Heap, g: Heap, source: string, name: string) {
    var d, c := Copy(source, name), Container(source);
    var s := Snap(Volume(source), "volume-source-for-snapshot-" + name);
    && d in g.datasets && g.datasets[d] == (if d in h.datasets then h.datasets[d] else Info(None, true))
    && c in g.datasets && g.datasets[c] == (if c in h.datasets then h.datasets[c] else Info(None, false))
    && (d !in h.datasets ==> !HasSnaps(g, d))
    && Dropped(g, s) && Dropped(g, Snap(d, s.name))
    && SameDatasets(h, g, {d, c}) && SameSnaps(h, g, {}, {s, Snap(d, s.name)})
  }

  lemma CopySteps(h: Heap, source: string, name: string)
    requires WellFormed(h) && !CopyElsewhere(h, source, name) && Volume(source) in h.datasets
    ensures CopyThere(h, Copied(h, source, name).0, source, name)
  {
    var s, d := Snap(Volume(source), DETACHED_PREFIX + name), Copy(source, name);
    ContainerMade(h, source);
    var g := Create(h, Container(source), false).heap;
    SnapshotKeeps(g, s, false);
    var t := Snapshot(g, s, false).heap;
    assert SameSnaps(h, t, {}, {s}) && SameDatasets(h, t, {Container(source)});
    CopyMade(t, s, d);
    CopyFinished(h, t, WithCopy(t, s, d), source, name);
  }

  // Send and receive, and the property of a copy that is new.
  function WithCopy(h: Heap, s: Snap, d: Dataset): Heap {
    var u := SendReceive(h, s, d);
    if u.outcome == Done then SetManaged(u.heap, d) else u.heap
  }

  lemma CopyFinished(h: Heap, t: Heap, w: Heap, source: string, name: string)
    requires var s, d, c := Snap(Volume(source), DETACHED_PREFIX + name), Copy(source, name), Container(source);
             && WellFormed(h) && WellFormed(w)
             && SameDatasets(h, t, {c}) && SameSnaps(h, t, {}, {s})
             && SameDatasets(t, w, {d}) && SameSnaps(t, w, {}, {Snap(d, s.name)})
             && d in w.datasets && w.datasets[d] == (if d in h.datasets then h.datasets[d] else Info(None, true))
             && c in w.datasets && w.datasets[c] == (if c in h.datasets then h.datasets[c] else Info(None, false))
             && (forall x :: HasClone(w, x) <==> HasClone(h, x))
    ensures var s := Snap(Volume(source), DETACHED_PREFIX + name);
            var x := DestroySnapshot(w, Snap(Copy(source, name), s.name)).heap;
            CopyThere(h, DestroySnapshot(x, s).heap, source, name)
  {
    var s, d, c := Snap(Volume(source), DETACHED_PREFIX + name), Copy(source, name), Container(source);
    var own := Snap(d, s.name);
    SnapsThen(h, t, w, {s}, {own});
    DatasetsThen(h, t, w, {c}, {d});
    DropBoth(w, own, s);
    var y := DestroySnapshot(DestroySnapshot(w, own).heap, s).heap;
    SnapsThen(h, w, y, {s, own}, {own, s});
    if d !in h.datasets {
      NothingOn(h, d);
      FreshHasNone(h, y, d, s, own);
    }
  }

  lemma FreshHasNone(h: Heap, y: Heap, d: Dataset, s: Snap, own: Snap)
    requires WellFormed(h) && d !in h.datasets && SameSnaps(h, y, {}, {s, own}) && s.dataset != d
    requires own.dataset == d && Dropped(y, own) && (HasClone(y, own) ==> own in h.snaps)
    ensures !HasSnaps(y, d)
  {
    NothingOn(h, d);
  }

  lemma DropBoth(w: Heap, a: Snap, b: Snap)
    requires WellFormed(w)
    ensures var y := DestroySnapshot(DestroySnapshot(w, a).heap, b).heap;
            && WellFormed(y) && y.datasets == w.datasets && SameSnaps(w, y, {}, {a, b})
            && Dropped(y, a) && Dropped(y, b) && (forall t :: HasClone(y, t) <==> HasClone(w, t))
  {
    var x := DestroySnapshot(w, a).heap;
    var y := DestroySnapshot(x, b).heap;
    DropResult(w, a);
    DropResult(x, b);
    SameClones(w, y);
    SnapsThen(w, x, y, {a}, {b});
  }

  lemma SnapsThen(h: Heap, g: Heap, k: Heap, a: set<Snap>, b: set<Snap>)
    requires SameSnaps(h, g, {}, a) && SameSnaps(g, k, {}, b)
    ensures SameSnaps(h, k, {}, a + b)
  {
    forall s | s in h.snaps.Keys + k.snaps.Keys && s !in a + b
      ensures s in h.snaps && s in k.snaps && k.snaps[s] == h.snaps[s]
    {
      assert s in h.snaps.Keys + g.snaps.Keys && s in g.snaps.Keys + k.snaps.Keys;
    }
  }

  lemma DatasetsThen(h: Heap, g: Heap, k: Heap, a: set<Dataset>, b: set<Dataset>)
    requires SameDatasets(h, g, a) && SameDatasets(g, k, b)
    ensures SameDatasets(h, k, a + b)
  {
    forall d | d in h.datasets.Keys + k.datasets.Keys && d !in a + b
      ensures d in h.datasets && d in k.datasets && k.datasets[d] == h.datasets[d]
    {
      assert d in h.datasets.Keys + g.datasets.Keys && d in g.datasets.Keys + k.datasets.Keys;
    }
  }

  lemma NothingOn(h: Heap, d: Dataset)
    requires WellFormed(h) && d !in h.datasets
    ensures forall name :: !HasClone(h, Snap(d, name)) && Snap(d, name) !in h.snaps
  {
  }

  /**
   DeleteDetachedSnapshot: refused, with nothing changed, while the copy has
   dependent clones; when it succeeds, the copy is gone with its snapshots, and its
   container is gone unless it has other copies.
   */
  lemma CopyDeletedIsGone(h: Heap, source: string, name: string)
    requires WellFormed(h)
    ensures var r, d, c := Step(h, DeleteDetachedSnapshot(source, name)), Copy(source, name), Container(source);
            && (r.1 == Ok || r.1 == Failed)
            && (HasDependents(h, d) ==> r == (h, Failed))
            && (!HasDependents(h, d) ==> d !in r.0.datasets && !HasSnaps(r.0, d))
            && (!HasDependents(h, d) && !HasDependents(h, c) ==> r.1 == Ok)
            && (r.1 == Ok ==> !HasSnaps(r.0, c)
                              && (c in r.0.datasets <==> c in h.datasets && HasOtherCopies(h, source, name)))
            && SameDatasets(h, r.0, {c, d}) && SameSnaps(h, r.0, {c, d}, Origins(h, d) + Origins(h, c))
  {
    var d, c := Copy(source, name), Container(source);
    if !HasDependents(h, d) {
      var g := Destroy(h, d).heap;
      CopyDeletedIs(h, source, name);
      DestroyedIsGone(h, d);
      FewerDependents(h, g, d, c);
      EmptiedAndRemoved(g, source);
      OtherCopies(h, g, source, name);
      SnapsThenOn(h, g, WithoutContainer(g, source), d, c);
      StaysGone(g, WithoutContainer(g, source), d, c);
    }
  }

  lemma CopyDeletedIs(h: Heap, source: string, name: string)
    requires !HasDependents(h, Copy(source, name))
    ensures var g := Destroy(h, Copy(source, name)).heap;
            && CopyDeleted(h, source, name).0 == WithoutContainer(g, source)
            && CopyDeleted(h, source, name).1
               == (if DestroyAllSnapshots(g, Container(source)).outcome == Dependents then Failed else Ok)
  {
  }

  // Emptied of its snapshots and, if it has no copies, destroyed.
  function WithoutContainer(g: Heap, source: string): Heap {
    var e := DestroyAllSnapshots(g, Container(source));
    if e.outcome == Dependents then g else DestroyContainer(e.heap, source).heap
  }

  lemma OtherCopies(h: Heap, g: Heap, source: string, name: string)
    requires SameDatasets(h, g, {Copy(source, name)}) && Copy(source, name) !in g.datasets
    ensures HasCopies(g, source) <==> HasOtherCopies(h, source, name)
  {
    assert forall d | d in g.datasets :: d in h.datasets.Keys + g.datasets.Keys;
    assert forall d | d in h.datasets :: d in h.datasets.Keys + g.datasets.Keys;
  }

  lemma StaysGone(g: Heap, k: Heap, d: Dataset, c: Dataset)
    requires SameDatasets(g, k, {c}) && d !in g.datasets && !HasSnaps(g, d) && d != c
    requires forall s | s in k.snaps :: s in g.snaps
    ensures d !in k.datasets && !HasSnaps(k, d)
  {
    assert d in k.datasets ==> d in g.datasets.Keys + k.datasets.Keys;
  }

  predicate HasOtherCopies(h: Heap, source: string, name: string) {
    exists d | d in h.datasets :: d.Copy? && d.source == source && d.name != name
  }

  function Origins(h: Heap, d: Dataset): set<Snap> {
    if d in h.datasets && h.datasets[d].origin.Some? then {h.datasets[d].origin.value} else {}
  }

  // destroy -r of a dataset without dependents
  lemma DestroyedIsGone(h: Heap, d: Dataset)
    requires WellFormed(h) && !HasDependents(h, d)
    ensures var g := Destroy(h, d).heap;
            && WellFormed(g) && d !in g.datasets && !HasSnaps(g, d)
            && SameDatasets(h, g, {d}) && SameSnaps(h, g, {d}, Origins(h, d))
            && (forall s | s in g.snaps :: s in h.snaps)
  {
    if d in h.datasets {
      ReapKeepsOthers(h, d);
    }
  }

  lemma FewerDependents(h: Heap, g: Heap, d: Dataset, c: Dataset)
    requires SameDatasets(h, g, {d}) && d !in g.datasets && (forall s | s in g.snaps :: s in h.snaps)
    ensures HasDependents(g, c) ==> HasDependents(h, c)
  {
    if HasDependents(g, c) {
      var s :| s in g.snaps && s.dataset == c && HasClone(g, s);
      var e :| e in g.datasets && ClonedBy(g, s, e);
      assert e in h.datasets.Keys + g.datasets.Keys;
      CloneAt(h, s, e);
    }
  }

  // The container, once its copy is gone.
  lemma EmptiedAndRemoved(g: Heap, source: string)
    requires WellFormed(g)
    ensures var c := Container(source);
            var e, k := DestroyAllSnapshots(g, c), WithoutContainer(g, source);
            && (e.outcome == Dependents ==> HasDependents(g, c))
            && (e.outcome != Dependents ==>
                  !HasSnaps(k, c) && (c in k.datasets <==> c in g.datasets && HasCopies(g, source)))
            && SameDatasets(g, k, {c}) && SameSnaps(g, k, {c}, Origins(g, c))
            && (forall s | s in k.snaps :: s in g.snaps)
  {
    var c := Container(source);
    DestroyAllPrunes(g, c);
    PruneKeeps(g, DestroyAllSnapshots(g, c).heap, g.snaps.Keys);
    var e := DestroyAllSnapshots(g, c).heap;
    if c in e.datasets && !HasCopies(e, source) && !HasSnaps(e, c) {
      assert WithoutSnaps(e, c).snaps == e.snaps;
      DestroyedIsGone(e, c);
    }
  }

  lemma SnapsThenOn(h: Heap, g: Heap, k: Heap, d: Dataset, c: Dataset)
    requires SameSnaps(h, g, {d}, Origins(h, d)) && SameSnaps(g, k, {c}, Origins(g, c))
    requires SameDatasets(h, g, {d}) && SameDatasets(g, k, {c}) && d !in g.datasets
    ensures SameSnaps(h, k, {c, d}, Origins(h, d) + Origins(h, c)) && SameDatasets(h, k, {c, d})
  {
    assert Origins(g, c) <= Origins(h, c) by {
      assert c in g.datasets ==> c in h.datasets.Keys + g.datasets.Keys;
    }
    forall s | s in h.snaps.Keys + k.snaps.Keys && s.dataset !in {c, d} && s !in Origins(h, d) + Origins(h, c)
      ensures s in h.snaps && s in k.snaps && k.snaps[s] == h.snaps[s]
    {
      assert s in h.snaps.Keys + g.snaps.Keys && s in g.snaps.Keys + k.snaps.Keys;
    }
    DatasetsThen(h, g, k, {d}, {c});
    assert {d} + {c} == {c, d};
  }

  // ----------------------------------------------------------------- volumes ---

  /**
   DeleteVolume: when it succeeds, the volume is gone with its snapshots; when it is
   refused, everything is there. The snapshot it was made from stays unless this was
   its last clone and it is named like the driver's own or was waiting. Nothing else
   changes.
   */
  lemma VolumeDeleted(h: Heap, id: string, retain: bool, ignoreForeign: bool)
    requires WellFormed(h)
    ensures var r, d := Step(h, DeleteVolume(id, retain, ignoreForeign)), Volume(id);
            && (retain ==> r == (h, Ok))
            && (!retain && r.1 == Ok ==> d !in r.0.datasets && !HasSnaps(r.0, d))
            && (r.1 != Ok ==> r.1 == FailedPrecondition && r.0.datasets == h.datasets && r.0.snaps.Keys == h.snaps.Keys)
            && SameDatasets(h, r.0, {d}) && SameSnaps(h, r.0, {d}, Origins(h, d))
    ensures var r, d := Step(h, DeleteVolume(id, retain, ignoreForeign)), Volume(id);
            !retain && r.1 == Ok ==> forall s | s in Origins(h, d) && s.dataset != d ::
              s in r.0.snaps <==> HasOtherClone(h, s, d) || !(IsCloneName(s.name) || h.snaps[s].deferred)
  {
    var d, g := Volume(id), Released(h, Volume(id));
    ReleasedWell(h, d);
    DeleteRefusesExactly(h, id, ignoreForeign);
    assert SameSnaps(h, g, {}, Origins(h, d));
    if !retain && Deleted(h, id, ignoreForeign).1 == Ok {
      DestroyedIsGone(g, d);
      ReleasedThenGone(h, g, Destroy(g, d).heap, d);
      forall s | s in Origins(h, d) && s.dataset != d
        ensures s in Deleted(h, id, ignoreForeign).0.snaps
                <==> HasOtherClone(h, s, d) || !(IsCloneName(s.name) || h.snaps[s].deferred)
      {
        GoesExactly(h, s, id, ignoreForeign);
        assert HasOtherClone(h, s, d) <==> !OnlyClone(h, s, id);
      }
    }
  }

  /**
   Which snapshots stand in the way of a deletion: those made by CreateSnapshot, and
   unless they are to be ignored, any of a volume that is managed itself.
   */
  lemma SnapshotsProtect(h: Heap, id: string, ignoreForeign: bool)
    requires WellFormed(h) && Volume(id) in h.datasets && !HasDependents(h, Volume(id))
    ensures Step(h, DeleteVolume(id, false, ignoreForeign)).1 == Ok
       <==> forall s | s in h.snaps && s.dataset == Volume(id) ::
              !h.snaps[s].managed && (ignoreForeign || !h.datasets[Volume(id)].managed)
  {
    DeleteRefusesExactly(h, id, ignoreForeign);
  }

  // Nothing protects a volume like a snapshot of it taken through the driver.
  lemma SnapshotTakenProtects(h: Heap, id: string, name: string, ignoreForeign: bool)
    requires WellFormed(h) && Snap(Volume(id), name) !in h.snaps && Step(h, CreateSnapshot(id, name)).1 == Ok
    ensures Step(Step(h, CreateSnapshot(id, name)).0, DeleteVolume(id, false, ignoreForeign)).1 == FailedPrecondition
  {
    var s := Snap(Volume(id), name);
    SnapshotCreated(h, id, name);
    SnapshotKeeps(h, s, true);
    DeleteRefusesExactly(Step(h, CreateSnapshot(id, name)).0, id, ignoreForeign);
  }

  lemma ReleasedThenGone(h: Heap, g: Heap, k: Heap, d: Dataset)
    requires SameSnaps(h, g, {}, Origins(h, d)) && g.datasets == h.datasets
    requires SameSnaps(g, k, {d}, Origins(g, d))
    ensures SameSnaps(h, k, {d}, Origins(h, d))
  {
    forall s | s in h.snaps.Keys + k.snaps.Keys && s.dataset != d && s !in Origins(h, d)
      ensures s in h.snaps && s in k.snaps && k.snaps[s] == h.snaps[s]
    {
      assert s in h.snaps.Keys + g.snaps.Keys && s in g.snaps.Keys + k.snaps.Keys;
    }
  }

  // What a volume is made from: a snapshot named after it, of the volume or copy
  // asked for, or the snapshot asked for.
  lemma SourceSnapIs(id: string, v: string, name: string)
    ensures SourceSnap(id, FromVolume(v)) == Snap(Volume(v), "volume-source-for-volume-" + id)
    ensures SourceSnap(id, FromCopy(v, name)) == Snap(Copy(v, name), "volume-source-for-volume-" + id)
    ensures SourceSnap(id, FromSnapshot(v, name)) == Snap(Volume(v), name)
  {
  }

  // How CreateVolume replies.
  function ReplyTo(h: Heap, id: string, content: Source, detached: bool, fits: bool): Reply {
    if Volume(id) in h.datasets && !fits then AlreadyExists
    else if content != Blank && !SourceThere(h, id, content) then
      (if detached && content.FromSnapshot? then Failed else NotFound)
    else if content != Blank && detached && Volume(id) in h.datasets && HasDependents(h, Volume(id)) then Failed
    else Ok
  }

  // The volume is there: the one that was, or a new one, which is a clone of its
  // source or of its own.
  predicate VolumeThere(h: Heap, g: Heap, id: string, content: Source, detached: bool) {
    var d := Volume(id);
    && d in g.datasets && SameDatasets(h, g, {d})
    && g.datasets[d].origin == (if d in h.datasets then h.datasets[d].origin
                                else if content == Blank || detached then None
                                else Some(SourceSnap(id, content)))
    && (d !in h.datasets || (detached && content.FromVolume?) ==> g.datasets[d].managed)
    && (d in h.datasets && !(detached && content.FromVolume?) ==> g.datasets[d] == h.datasets[d])
  }

  // Its snapshots: a clone keeps the one it needs, a copy has none; what was taken
  // on the way is dropped, and the others are as they were.
  predicate SnapshotsAfter(h: Heap, g: Heap, id: string, content: Source, detached: bool) {
    if content == Blank || (content.FromSnapshot? && !detached) then g.snaps == h.snaps
    else
      var s, d := SourceSnap(id, content), Volume(id);
      && (detached ==> !HasSnaps(g, d))
      && SameSnaps(h, g, if detached then {d} else {}, if content.FromSnapshot? then {} else {s})
      && (if content.FromVolume? && !detached then
            s in g.snaps && g.snaps[s] == if s in h.snaps then h.snaps[s] else SnapInfo(false, false)
          else !content.FromSnapshot? ==> Dropped(g, s))
  }

  /**
   CreateVolume: which reply, what is there after a success, and that a refusal
   changes nothing but, when a copy fails, properties of the volume and the snapshot
   taken for it.
   */
  lemma VolumeCreated(h: Heap, id: string, content: Source, detached: bool, fits: bool)
    requires WellFormed(h)
    ensures var r := Step(h, CreateVolume(id, content, detached, fits));
            && r.1 == ReplyTo(h, id, content, detached, fits)
            && (r.1 == Ok ==> VolumeThere(h, r.0, id, content, detached))
            && (r.1 == Ok && (Volume(id) !in h.datasets || fits) ==> SnapshotsAfter(h, r.0, id, content, detached))
            && (r.1 == AlreadyExists || r.1 == NotFound ==> r.0 == h)
            && (r.1 == Failed ==>
                  SameDatasets(h, r.0, {Volume(id)})
                  && SameSnaps(h, r.0, {}, if content.FromSnapshot? then {} else {SourceSnap(id, content)}))
  {
    if (Volume(id) in h.datasets ==> fits) && content != Blank && SourceThere(h, id, content) {
      if detached {
        CopyOutcome(h, id, content);
      } else {
        CloneOutcome(h, id, content);
      }
    }
  }

  lemma CloneOutcome(h: Heap, id: string, content: Source)
    requires WellFormed(h) && content != Blank && SourceThere(h, id, content)
    ensures var r := Created(h, id, content, false);
            r.1 == Ok && VolumeThere(h, r.0, id, content, false) && SnapshotsAfter(h, r.0, id, content, false)
  {
    if !content.FromSnapshot? {
      var s := SourceSnap(id, content);
      TakenAndCloned(h, s, Volume(id));
      if content.FromCopy? {
        var g := Clone(Snapshot(h, s, false).heap, s, Volume(id)).heap;
        DropResult(g, s);
        SnapsThen(h, g, DestroySnapshot(g, s).heap, {s}, {s});
        assert {s} + {s} == {s};
      }
    }
  }

  lemma TakenAndCloned(h: Heap, s: Snap, d: Dataset)
    requires WellFormed(h) && s.dataset in h.datasets
    ensures var g := Clone(Snapshot(h, s, false).heap, s, d).heap;
            && WellFormed(g) && SameDatasets(h, g, {d}) && SameSnaps(h, g, {}, {s})
            && s in g.snaps && g.snaps[s] == (if s in h.snaps then h.snaps[s] else SnapInfo(false, false))
            && d in g.datasets && g.datasets[d] == (if d in h.datasets then h.datasets[d] else Info(Some(s), true))
  {
    SnapshotKeeps(h, s, false);
    var t := Snapshot(h, s, false).heap;
    CloneKeeps(t, s, d, t.snaps.Keys);
  }

  // Filled by send and receive.
  lemma FilledOutcome(h: Heap, s: Snap, id: string, always: bool)
    requires WellFormed(h) && s in h.snaps
    ensures var r, d := Filled(h, s, id, true, always), Volume(id);
            && WellFormed(r.0) && SameDatasets(h, r.0, {d})
            && (r.1 == Ok <==> !(d in h.datasets && HasDependents(h, d))) && (r.1 == Ok || r.1 == Failed)
            && (r.1 == Ok ==>
                  && d in r.0.datasets && SameSnaps(h, r.0, {d}, {}) && !HasSnaps(r.0, d)
                  && r.0.datasets[d].origin == (if d in h.datasets then h.datasets[d].origin else None)
                  && (d !in h.datasets || always ==> r.0.datasets[d].managed)
                  && (d in h.datasets && !always ==> r.0.datasets[d] == h.datasets[d]))
            && (r.1 == Failed ==> r.0.snaps == h.snaps)
  {
    FilledPrunes(h, s, id, always);
    if Volume(id) !in h.datasets {
      FreshCopy(h, s, id, always);
      NothingOn(h, Volume(id));
    } else {
      ManagePrunes(h, Volume(id));
      if Filled(h, s, id, true, always).1 == Ok {
        FilledSettles(h, s, id, always);
      }
    }
  }

  lemma CopyOutcome(h: Heap, id: string, content: Source)
    requires WellFormed(h) && content != Blank && SourceThere(h, id, content)
    ensures var r, d := Created(h, id, content, true), Volume(id);
            && (r.1 == Ok <==> !(d in h.datasets && HasDependents(h, d))) && (r.1 == Ok || r.1 == Failed)
            && (r.1 == Ok ==> VolumeThere(h, r.0, id, content, true) && SnapshotsAfter(h, r.0, id, content, true))
            && (r.1 == Failed ==>
                  SameDatasets(h, r.0, {d})
                  && SameSnaps(h, r.0, {}, if content.FromSnapshot? then {} else {SourceSnap(id, content)}))
  {
    var s, d := SourceSnap(id, content), Volume(id);
    if content.FromSnapshot? {
      FilledOutcome(h, s, id, false);
    } else {
      SnapshotKeeps(h, s, false);
      SameDependents(h, s, d);
      var t := Snapshot(h, s, false).heap;
      FilledOutcome(t, s, id, content.FromVolume?);
      var g := Filled(t, s, id, true, content.FromVolume?).0;
      DropResult(g, s);
      CopyDropped(h, t, g, DestroySnapshot(g, s).heap, s, d);
    }
  }

  lemma CopyDropped(h: Heap, t: Heap, g: Heap, k: Heap, s: Snap, d: Dataset)
    requires SameSnaps(h, t, {}, {s}) && SameSnaps(g, k, {}, {s}) && (forall x | x in k.snaps :: x in g.snaps)
    ensures SameSnaps(t, g, {d}, {}) ==> SameSnaps(h, k, {d}, {s})
    ensures !HasSnaps(g, d) ==> !HasSnaps(k, d)
  {
    if SameSnaps(t, g, {d}, {}) {
      forall x | x in h.snaps.Keys + k.snaps.Keys && x.dataset != d && x != s
        ensures x in h.snaps && x in k.snaps && k.snaps[x] == h.snaps[x]
      {
        assert x in h.snaps.Keys + t.snaps.Keys && x in t.snaps.Keys + g.snaps.Keys && x in g.snaps.Keys + k.snaps.Keys;
      }
    }
  }
}
