/**
 The life of volumes, snapshots and clones: the controller's calls as ordered
 ZFS commands over a heap of datasets and snapshots. Volumes live under one
 parent dataset, detached snapshots (full copies, in one container per source
 volume) under another that neither contains it nor lies in it.
 */
module ZfsVolumes {
  import opened Wrappers
  import opened Text

  // --------------------------------------------------------------- the heap ---

  datatype Dataset = Volume(id: string) | Container(source: string) | Copy(source: string, name: string)

  datatype Snap = Snap(dataset: Dataset, name: string)

  // `origin`: the snapshot the dataset is a clone of. `managed`: the driver's
  // managed_resource property, set here (snapshots inherit their dataset's).
  datatype Info = Info(origin: Option<Snap>, managed: bool)

  // `deferred`: destroyed with -d while it had clones.
  datatype SnapInfo = SnapInfo(deferred: bool, managed: bool)

  datatype Heap = Heap(datasets: map<Dataset, Info>, snaps: map<Snap, SnapInfo>)

  const EMPTY := Heap(map[], map[])

  predicate ClonedBy(h: Heap, s: Snap, d: Dataset) {
    d in h.datasets && h.datasets[d].origin == Some(s)
  }

  predicate HasClone(h: Heap, s: Snap) {
    exists d | d in h.datasets :: ClonedBy(h, s, d)
  }

  // Some snapshot of the dataset has a clone.
  predicate HasDependents(h: Heap, d: Dataset) {
    exists s | s in h.snaps :: s.dataset == d && HasClone(h, s)
  }

  predicate HasSnaps(h: Heap, d: Dataset) {
    exists s | s in h.snaps :: s.dataset == d
  }

  predicate HasCopies(h: Heap, source: string) {
    exists d | d in h.datasets :: d.Copy? && d.source == source
  }

  // ----------------------------------------------------- commands, by zfs(8) ---

  datatype Outcome = Done | Missing | Exists | Dependents | Children

  datatype Result = Result(heap: Heap, outcome: Outcome)

  function Snapshot(h: Heap, s: Snap, managed: bool): Result {
    if s.dataset !in h.datasets then Result(h, Missing)
    else if s in h.snaps then Result(h, Exists)
    else Result(h.(snaps := h.snaps[s := SnapInfo(false, managed)]), Done)
  }

  function Create(h: Heap, d: Dataset, managed: bool): Result {
    if d in h.datasets then Result(h, Exists)
    else Result(h.(datasets := h.datasets[d := Info(None, managed)]), Done)
  }

  function Clone(h: Heap, s: Snap, d: Dataset): Result {
    if s !in h.snaps then Result(h, Missing)
    else if d in h.datasets then Result(h, Exists)
    else Result(h.(datasets := h.datasets[d := Info(Some(s), true)]), Done)
  }

  // A full stream: no origin, no properties, and the snapshot comes along.
  function SendReceive(h: Heap, s: Snap, d: Dataset): Result {
    if s !in h.snaps then Result(h, Missing)
    else if d in h.datasets then Result(h, Exists)
    else Result(Heap(h.datasets[d := Info(None, false)], h.snaps[Snap(d, s.name) := SnapInfo(false, false)]), Done)
  }

  function SetManaged(h: Heap, d: Dataset): Heap {
    if d !in h.datasets then h
    else h.(datasets := h.datasets[d := h.datasets[d].(managed := true)])
  }

  // destroy -d: at once, or when the last clone goes.
  function DestroySnapshot(h: Heap, s: Snap): Result {
    if s !in h.snaps then Result(h, Missing)
    else if HasClone(h, s) then Result(h.(snaps := h.snaps[s := h.snaps[s].(deferred := true)]), Done)
    else Result(h.(snaps := h.snaps - {s}), Done)
  }

  function WithoutSnaps(h: Heap, d: Dataset): Heap {
    h.(snaps := map s | s in h.snaps && s.dataset != d :: h.snaps[s])
  }

  // destroy dataset@%
  function DestroyAllSnapshots(h: Heap, d: Dataset): Result {
    if d !in h.datasets || !HasSnaps(h, d) then Result(h, Missing)
    else if HasDependents(h, d) then Result(h, Dependents)
    else Result(WithoutSnaps(h, d), Done)
  }

  // A deferred snapshot goes with its last clone.
  function Reap(h: Heap, s: Option<Snap>): Heap {
    if s.Some? && s.value in h.snaps && h.snaps[s.value].deferred && !HasClone(h, s.value)
    then h.(snaps := h.snaps - {s.value}) else h
  }

  // destroy -r of a dataset without child datasets
  function Destroy(h: Heap, d: Dataset): Result {
    if d !in h.datasets then Result(h, Missing)
    else if HasDependents(h, d) then Result(h, Dependents)
    else
      var g := WithoutSnaps(h, d);
      Result(Reap(g.(datasets := g.datasets - {d}), h.datasets[d].origin), Done)
  }

  // destroy, without -r
  function DestroyContainer(h: Heap, source: string): Result {
    var d := Container(source);
    if d !in h.datasets then Result(h, Missing)
    else if HasCopies(h, source) || HasSnaps(h, d) then Result(h, Children)
    else Result(Reap(h.(datasets := h.datasets - {d}), h.datasets[d].origin), Done)
  }

  // The command wrappers: run idempotently, they do not report what is already
  // so. None is success.
  class Zetabyte {
    var heap: Heap

    constructor (h: Heap)
      ensures heap == h
    {
      heap := h;
    }

    method TakeSnapshot(s: Snap, managed: bool) returns (err: Option<Outcome>)
      modifies this
      ensures heap == Snapshot(old(heap), s, managed).heap
      ensures err == if s.dataset in old(heap).datasets then None else Some(Missing)
    {
      var r := Snapshot(heap, s, managed);
      heap := r.heap;
      err := if r.outcome in {Done, Exists} then None else Some(r.outcome);
    }

    method CreateDataset(d: Dataset, managed: bool)
      modifies this
      ensures heap == Create(old(heap), d, managed).heap
    {
      heap := Create(heap, d, managed).heap;
    }

    method CloneTo(s: Snap, d: Dataset) returns (err: Option<Outcome>)
      modifies this
      ensures heap == Clone(old(heap), s, d).heap
      ensures err == if s in old(heap).snaps then None else Some(Missing)
    {
      var r := Clone(heap, s, d);
      heap := r.heap;
      err := if r.outcome in {Done, Exists} then None else Some(r.outcome);
    }

    // Not idempotent: the caller sorts out an existing destination.
    method Replicate(s: Snap, d: Dataset) returns (err: Option<Outcome>)
      modifies this
      ensures heap == SendReceive(old(heap), s, d).heap
      ensures var o := SendReceive(old(heap), s, d).outcome; err == if o == Done then None else Some(o)
    {
      var r := SendReceive(heap, s, d);
      heap := r.heap;
      err := if r.outcome == Done then None else Some(r.outcome);
    }

    method Manage(d: Dataset)
      modifies this
      ensures heap == SetManaged(old(heap), d)
    {
      heap := SetManaged(heap, d);
    }

    method DestroyDeferred(s: Snap)
      modifies this
      ensures heap == DestroySnapshot(old(heap), s).heap
    {
      heap := DestroySnapshot(heap, s).heap;
    }

    method RemoveSnapshotsFromDataset(d: Dataset) returns (err: Option<Outcome>)
      modifies this
      ensures heap == DestroyAllSnapshots(old(heap), d).heap
      ensures err == if DestroyAllSnapshots(old(heap), d).outcome == Dependents then Some(Dependents) else None
    {
      var r := DestroyAllSnapshots(heap, d);
      heap := r.heap;
      err := if r.outcome in {Done, Missing} then None else Some(r.outcome);
    }

    method DestroyTree(d: Dataset) returns (err: Option<Outcome>)
      modifies this
      ensures heap == Destroy(old(heap), d).heap
      ensures err == if Destroy(old(heap), d).outcome == Dependents then Some(Dependents) else None
    {
      var r := Destroy(heap, d);
      heap := r.heap;
      err := if r.outcome in {Done, Missing} then None else Some(r.outcome);
    }

    method DestroyEmpty(source: string) returns (err: Option<Outcome>)
      modifies this
      ensures heap == DestroyContainer(old(heap), source).heap
      ensures err == if DestroyContainer(old(heap), source).outcome == Children then Some(Children) else None
    {
      var r := DestroyContainer(heap, source);
      heap := r.heap;
      err := if r.outcome in {Done, Missing} then None else Some(r.outcome);
    }
  }

  // --------------------------------------------------------- the controller ---

  const CLONE_PREFIX := "volume-source-for-volume-"

  const DETACHED_PREFIX := "volume-source-for-snapshot-"

  predicate IsCloneName(name: string) {
    StartsWith(name, CLONE_PREFIX)
  }

  // The volume a snapshot named this way was taken for.
  function ClaimedBy(name: string): Dataset
    requires IsCloneName(name)
  {
    Volume(name[|CLONE_PREFIX|..])
  }

  // A volume's content source: a volume, a snapshot on a volume, or a detached
  // snapshot.
  datatype Source = Blank | FromVolume(volume: string) | FromSnapshot(volume: string, name: string)
                  | FromCopy(source: string, name: string)

  // `fits`: the size check of an existing volume passes (see ZvolSizing).
  datatype Rpc =
    | CreateVolume(id: string, content: Source, detached: bool, fits: bool)
    | DeleteVolume(id: string, retain: bool, ignoreForeign: bool)
    | CreateSnapshot(source: string, name: string)
    | CreateDetachedSnapshot(source: string, name: string)
    | DeleteSnapshot(volume: string, name: string)
    | DeleteDetachedSnapshot(source: string, name: string)

  datatype Reply = Ok | NotFound | FailedPrecondition | AlreadyExists | Failed

  // The snapshot a new volume is made from.
  function SourceSnap(id: string, content: Source): Snap
    requires content != Blank
  {
    match content
    case FromVolume(v) => Snap(Volume(v), CLONE_PREFIX + id)
    case FromSnapshot(v, name) => Snap(Volume(v), name)
    case FromCopy(v, name) => Snap(Copy(v, name), CLONE_PREFIX + id)
  }

  // The volume made from a snapshot, and whether that went well. `always`: the
  // properties are set even on a volume that was there.
  function Filled(h: Heap, s: Snap, id: string, detached: bool, always: bool): (Heap, Reply) {
    if !detached then (Clone(h, s, Volume(id)).heap, if s in h.snaps then Ok else NotFound)
    else if s !in h.snaps then (h, Failed)
    else
      var r := SendReceive(h, s, Volume(id));
      var g := if r.outcome == Done || always then SetManaged(r.heap, Volume(id)) else r.heap;
      (DestroyAllSnapshots(g, Volume(id)).heap, if HasDependents(g, Volume(id)) then Failed else Ok)
  }

  // A snapshot left over from making the volume goes, or waits for its clone.
  function Created(h: Heap, id: string, content: Source, detached: bool): (Heap, Reply) {
    if content == Blank then (Create(h, Volume(id), true).heap, Ok)
    else
      var s := SourceSnap(id, content);
      if content.FromSnapshot? then Filled(h, s, id, detached, false)
      else if s.dataset !in h.datasets then (h, NotFound)
      else
        var r := Filled(Snapshot(h, s, false).heap, s, id, detached, content.FromVolume?);
        if r.1 == Ok && (detached || content.FromCopy?) then (DestroySnapshot(r.0, s).heap, Ok) else r
  }

  predicate HasManagedSnapshots(h: Heap, d: Dataset, ignoreForeign: bool) {
    d in h.datasets
    && exists s | s in h.snaps :: s.dataset == d && (h.snaps[s].managed || (!ignoreForeign && h.datasets[d].managed))
  }

  // The origin is destroyed (deferred) first, whatever happens next.
  function Released(h: Heap, d: Dataset): Heap {
    if d in h.datasets && h.datasets[d].origin.Some? && IsCloneName(h.datasets[d].origin.value.name)
    then DestroySnapshot(h, h.datasets[d].origin.value).heap else h
  }

  function Deleted(h: Heap, id: string, ignoreForeign: bool): (Heap, Reply) {
    var d := Volume(id);
    var g := Released(h, d);
    if HasManagedSnapshots(g, d, ignoreForeign) || Destroy(g, d).outcome == Dependents then (g, FailedPrecondition)
    else (Destroy(g, d).heap, Ok)
  }

  predicate NameElsewhere(h: Heap, source: string, name: string) {
    exists s | s in h.snaps :: s.dataset.Volume? && s.name == name && s.dataset.id != source
  }

  predicate CopyElsewhere(h: Heap, source: string, name: string) {
    exists d | d in h.datasets :: d.Copy? && d.name == name && d.source != source
  }

  function Snapped(h: Heap, source: string, name: string): (Heap, Reply) {
    if NameElsewhere(h, source, name) then (h, AlreadyExists)
    else if Volume(source) !in h.datasets then (h, FailedPrecondition)
    else (Snapshot(h, Snap(Volume(source), name), true).heap, Ok)
  }

  function Copied(h: Heap, source: string, name: string): (Heap, Reply) {
    if CopyElsewhere(h, source, name) then (h, AlreadyExists)
    else
      var g := Create(h, Container(source), false).heap;
      var s, d := Snap(Volume(source), DETACHED_PREFIX + name), Copy(source, name);
      if Volume(source) !in h.datasets then (g, FailedPrecondition)
      else
        var t := Snapshot(g, s, false).heap;
        var u := SendReceive(t, s, d);
        var w := if u.outcome == Done then SetManaged(u.heap, d) else u.heap;
        (DestroySnapshot(DestroySnapshot(w, Snap(d, s.name)).heap, s).heap, Ok)
  }

  function CopyDeleted(h: Heap, source: string, name: string): (Heap, Reply) {
    var g := Destroy(h, Copy(source, name));
    if g.outcome == Dependents then (h, Failed)
    else
      var e := DestroyAllSnapshots(g.heap, Container(source));
      if e.outcome == Dependents then (g.heap, Failed)
      else (DestroyContainer(e.heap, source).heap, Ok)
  }

  // One completed call.
  function Step(h: Heap, rpc: Rpc): (Heap, Reply) {
    match rpc
    case CreateVolume(id, content, detached, fits) =>
      if Volume(id) in h.datasets && !fits then (h, AlreadyExists) else Created(h, id, content, detached)
    case DeleteVolume(id, retain, ignoreForeign) => if retain then (h, Ok) else Deleted(h, id, ignoreForeign)
    case CreateSnapshot(source, name) => Snapped(h, source, name)
    case CreateDetachedSnapshot(source, name) => Copied(h, source, name)
    case DeleteSnapshot(volume, name) => (DestroySnapshot(h, Snap(Volume(volume), name)).heap, Ok)
    case DeleteDetachedSnapshot(source, name) => CopyDeleted(h, source, name)
  }

  class Controller {
    const zb: Zetabyte

    constructor (zb: Zetabyte)
      ensures this.zb == zb
    {
      this.zb := zb;
    }

    method CreateVolume(id: string, content: Source, detached: bool, fits: bool) returns (reply: Reply)
      modifies zb
      ensures (zb.heap, reply) == Step(old(zb.heap), Rpc.CreateVolume(id, content, detached, fits))
    {
      var d := Volume(id);
      if d in zb.heap.datasets && !fits {
        return AlreadyExists;
      }
      match content
      case Blank =>
        zb.CreateDataset(d, true);
        return Ok;
      case FromSnapshot(v, name) =>
        reply := Fill(Snap(Volume(v), name), id, detached, false);
      case FromVolume(v) =>
        var s := Snap(Volume(v), CLONE_PREFIX + id);
        var err := zb.TakeSnapshot(s, false);
        if err != None {
          return NotFound;
        }
        reply := Fill(s, id, detached, true);
        if reply == Ok && detached {
          zb.DestroyDeferred(s);
        }
      case FromCopy(v, name) =>
        var s := Snap(Copy(v, name), CLONE_PREFIX + id);
        var err := zb.TakeSnapshot(s, false);
        if err != None {
          return NotFound;
        }
        reply := Fill(s, id, detached, false);
        if reply == Ok {
          zb.DestroyDeferred(s);
        }
    }

    // The part the content sources share.
    method Fill(s: Snap, id: string, detached: bool, always: bool) returns (reply: Reply)
      modifies zb
      ensures (zb.heap, reply) == Filled(old(zb.heap), s, id, detached, always)
    {
      var d := Volume(id);
      if !detached {
        var err := zb.CloneTo(s, d);
        return if err == None then Ok else NotFound;
      }
      var err := zb.Replicate(s, d);
      if err == Some(Missing) {
        return Failed;
      }
      if err == None || always {
        zb.Manage(d);
      }
      err := zb.RemoveSnapshotsFromDataset(d);
      reply := if err == None then Ok else Failed;
    }

    method DeleteVolume(id: string, retain: bool, ignoreForeign: bool) returns (reply: Reply)
      modifies zb
      ensures (zb.heap, reply) == Step(old(zb.heap), Rpc.DeleteVolume(id, retain, ignoreForeign))
    {
      var d := Volume(id);
      var origin := if d in zb.heap.datasets then zb.heap.datasets[d].origin else None;
      if retain {
        return Ok;
      }
      if origin.Some? && IsCloneName(origin.value.name) {
        zb.DestroyDeferred(origin.value);
      }
      if HasManagedSnapshots(zb.heap, d, ignoreForeign) {
        return FailedPrecondition;
      }
      var err := zb.DestroyTree(d);
      reply := if err == None then Ok else FailedPrecondition;
    }

    method CreateSnapshot(source: string, name: string) returns (reply: Reply)
      modifies zb
      ensures (zb.heap, reply) == Step(old(zb.heap), Rpc.CreateSnapshot(source, name))
    {
      if NameElsewhere(zb.heap, source, name) {
        return AlreadyExists;
      }
      var err := zb.TakeSnapshot(Snap(Volume(source), name), true);
      reply := if err == None then Ok else FailedPrecondition;
    }

    method CreateDetachedSnapshot(source: string, name: string) returns (reply: Reply)
      modifies zb
      ensures (zb.heap, reply) == Step(old(zb.heap), Rpc.CreateDetachedSnapshot(source, name))
    {
      if CopyElsewhere(zb.heap, source, name) {
        return AlreadyExists;
      }
      var s, d := Snap(Volume(source), DETACHED_PREFIX + name), Copy(source, name);
      zb.CreateDataset(Container(source), false);
      var err := zb.TakeSnapshot(s, false);
      if err != None {
        return FailedPrecondition;
      }
      err := zb.Replicate(s, d);
      if err == None {
        zb.Manage(d);
      }
      zb.DestroyDeferred(Snap(d, s.name));
      zb.DestroyDeferred(s);
      reply := Ok;
    }

    method DeleteSnapshot(volume: string, name: string) returns (reply: Reply)
      modifies zb
      ensures (zb.heap, reply) == Step(old(zb.heap), Rpc.DeleteSnapshot(volume, name))
    {
      zb.DestroyDeferred(Snap(Volume(volume), name));
      reply := Ok;
    }

    method DeleteDetachedSnapshot(source: string, name: string) returns (reply: Reply)
      modifies zb
      ensures (zb.heap, reply) == Step(old(zb.heap), Rpc.DeleteDetachedSnapshot(source, name))
    {
      var err := zb.DestroyTree(Copy(source, name));
      if err != None {
        return Failed;
      }
      err := zb.RemoveSnapshotsFromDataset(Container(source));
      if err != None {
        return Failed;
      }
      err := zb.DestroyEmpty(source);
      reply := Ok;
    }
  }
}
