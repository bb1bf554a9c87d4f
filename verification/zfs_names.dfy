/**
 The names behind the heap of ZfsVolumes: how dataset and snapshot names are
 put together and taken apart, and why datasets and snapshots can be treated as
 separate things there.
 */
module ZfsNames {
  import opened Text
  import opened ZfsVolumes

  predicate IsZfsSnapshot(name: string) {
    '@' in name
  }

  // substring(indexOf("@") + 1), and with no "@" that is the whole name.
  function ExtractSnapshotName(name: string): string {
    if '@' in name then AfterFirst(name, '@') else name
  }

  function ExtractDatasetName(name: string): string {
    if '@' in name then BeforeFirst(name, '@') else name
  }

  function ExtractPool(name: string): string {
    Split(name, '/')[0]
  }

  function ExtractParentDatasetName(name: string): string {
    var parts := Split(name, '/');
    JoinWith(parts[..|parts| - 1], '/')
  }

  function ExtractLeafName(name: string): string {
    var parts := Split(name, '/');
    parts[|parts| - 1]
  }

  lemma {:induction false} JoinSplit(s: string, c: char)
    ensures JoinWith(Split(s, c), c) == s
  {
    if s != "" {
      JoinSplit(s[1..], c);
      var rest := Split(s[1..], c);
      if s[0] == c {
        assert ([""] + rest)[1..] == rest;
        assert JoinWith([""] + rest, c) == "" + [c] + s[1..];
      } else {
        var parts := [[s[0]] + rest[0]] + rest[1..];
        assert parts[1..] == rest[1..];
        assert JoinWith(parts, c) == [s[0]] + JoinWith(rest, c);
      }
    }
  }

  lemma {:induction false} SplitLast(a: string, c: char, b: string)
    requires c !in b
    ensures Split(a + [c] + b, c) == Split(a, c) + [b]
  {
    if c !in a {
      SplitFirst(a, c, b);
      SplitNone(a, c);
      SplitNone(b, c);
    } else {
      assert (a + [c] + b)[1..] == a[1..] + [c] + b;
      if a[0] == c && c !in a[1..] {
        SplitNone(a[1..], c);
      }
      SplitLast(a[1..], c, b);
    }
  }

  // A child's name gives back its parent and its own part.
  lemma ParentAndLeaf(parent: string, leaf: string)
    requires '/' !in leaf
    ensures ExtractParentDatasetName(parent + "/" + leaf) == parent
    ensures ExtractLeafName(parent + "/" + leaf) == leaf
    ensures ExtractPool(parent + "/" + leaf) == ExtractPool(parent)
  {
    assert parent + "/" + leaf == parent + ['/'] + leaf;
    SplitLast(parent, '/', leaf);
    JoinSplit(parent, '/');
    assert (Split(parent, '/') + [leaf])[..|Split(parent, '/')|] == Split(parent, '/');
  }

  // A snapshot's name gives back the dataset's and its own.
  lemma DatasetAndSnapshot(dataset: string, name: string)
    requires '@' !in dataset
    ensures IsZfsSnapshot(dataset + "@" + name)
    ensures ExtractDatasetName(dataset + "@" + name) == dataset
    ensures ExtractSnapshotName(dataset + "@" + name) == name
  {
    assert dataset + "@" + name == dataset + ['@'] + name;
    CutAtFirst(dataset, '@', name);
    assert (dataset + "@" + name)[|dataset|] == '@';
  }

  // ---------------------------------------------------- the names in the heap ---

  // The two configured parents: siblings, or further apart.
  predicate Apart(volumes: string, copies: string) {
    volumes != copies && !StartsWith(copies, volumes + "/") && !StartsWith(volumes, copies + "/")
  }

  // What the id checks leave: no separators.
  predicate Plain(part: string) {
    '/' !in part && '@' !in part
  }

  predicate PlainDataset(d: Dataset) {
    match d
    case Volume(id) => Plain(id)
    case Container(source) => Plain(source)
    case Copy(source, name) => Plain(source) && Plain(name)
  }

  function DatasetName(volumes: string, copies: string, d: Dataset): string {
    match d
    case Volume(id) => volumes + "/" + id
    case Container(source) => copies + "/" + source
    case Copy(source, name) => copies + "/" + source + "/" + name
  }

  function SnapName(volumes: string, copies: string, s: Snap): string {
    DatasetName(volumes, copies, s.dataset) + "@" + s.name
  }

  lemma NameParts(volumes: string, copies: string, d: Dataset)
    requires PlainDataset(d)
    ensures var name := DatasetName(volumes, copies, d);
            match d
            case Volume(id) => ExtractParentDatasetName(name) == volumes && ExtractLeafName(name) == id
            case Container(source) => ExtractParentDatasetName(name) == copies && ExtractLeafName(name) == source
            case Copy(source, n) =>
              ExtractParentDatasetName(name) == copies + "/" + source && ExtractLeafName(name) == n
  {
    match d
    case Volume(id) => ParentAndLeaf(volumes, id);
    case Container(source) => ParentAndLeaf(copies, source);
    case Copy(source, name) => ParentAndLeaf(copies + "/" + source, name);
  }

  /**
   With the parents apart, no two datasets share a name: volumes, containers
   and copies can be told from their names.
   */
  lemma DatasetNamesDiffer(volumes: string, copies: string, d: Dataset, e: Dataset)
    requires Apart(volumes, copies) && PlainDataset(d) && PlainDataset(e)
    requires DatasetName(volumes, copies, d) == DatasetName(volumes, copies, e)
    ensures d == e
  {
    NameParts(volumes, copies, d);
    NameParts(volumes, copies, e);
    if d.Copy? {
      ParentAndLeaf(copies, d.source);
    }
    if e.Copy? {
      ParentAndLeaf(copies, e.source);
    }
  }

  // And no two snapshots.
  lemma SnapNamesDiffer(volumes: string, copies: string, s: Snap, t: Snap)
    requires Apart(volumes, copies) && '@' !in volumes && '@' !in copies
    requires PlainDataset(s.dataset) && PlainDataset(t.dataset)
    requires SnapName(volumes, copies, s) == SnapName(volumes, copies, t)
    ensures s == t
  {
    DatasetAndSnapshot(DatasetName(volumes, copies, s.dataset), s.name);
    DatasetAndSnapshot(DatasetName(volumes, copies, t.dataset), t.name);
    DatasetNamesDiffer(volumes, copies, s.dataset, t.dataset);
  }

  // The test DeleteVolume makes on the origin it is told is the one ZfsVolumes
  // makes.
  lemma OriginIsCloneName(volumes: string, copies: string, s: Snap)
    requires '@' !in volumes && '@' !in copies && PlainDataset(s.dataset)
    ensures StartsWith(ExtractSnapshotName(SnapName(volumes, copies, s)), CLONE_PREFIX) <==> IsCloneName(s.name)
  {
    DatasetAndSnapshot(DatasetName(volumes, copies, s.dataset), s.name);
  }
}
