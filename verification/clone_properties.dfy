/**
 ZFS properties of a new volume: the option overlays of a StorageClass and a
 PVC merged into a copy of the driver's options, the properties copied from a
 content source, and the order in which all of these are laid over each other.
 */
module CloneProperties {
  import opened Wrappers
  import opened Text

  // A YAML value. `shown` is String() of the number.
  datatype Value = Str(s: string) | Number(shown: string) | Boolean(b: bool) | List(items: seq<Value>)
                 | Record(fields: map<string, Value>) | Null

  predicate Falsy(v: Value) {
    v == Null || v == Str("") || v == Boolean(false) || v == Number("0") || v == Number("NaN")
  }

  // -------------------------------------------------------------- validation ---

  const RESERVED := "democratic-csi:"

  // Names of ZFS user properties outside the driver's namespace.
  predicate Settable(name: string) {
    ':' in name && !StartsWith(name, RESERVED)
  }

  predicate ValidName(name: string, allowPattern: bool) {
    if name == "" then false
    else if allowPattern && name == "*" then true
    else if allowPattern && EndsWith(name, "*") then !StartsWith(name[..|name| - 1], "democratic-csi")
    else ':' in name && !StartsWith(name, RESERVED)
  }

  function Scalar(v: Value): Option<string> {
    match v
    case Str(s) => Some(s)
    case Number(shown) => Some(shown)
    case Boolean(b) => Some(if b then "true" else "false")
    case _ => None
  }

  function Shown(v: Value): string {
    if Scalar(v).Some? then Scalar(v).value else ""
  }

  /**
   The names a section may use: user properties outside the driver's namespace; in
   a copy list also the lone '*', and patterns that do not begin with its name.
   */
  lemma NamesAllowed(name: string)
    ensures ValidName(name, false) <==> ':' in name && !("democratic-csi:" <= name)
    ensures ValidName(name, true) <==>
              || name == "*"
              || (exists prefix :: name == prefix + "*" && !("democratic-csi" <= prefix))
              || (!EndsWith(name, "*") && ':' in name && !("democratic-csi:" <= name))
  {
    if EndsWith(name, "*") {
      assert name == name[..|name| - 1] + "*";
      forall prefix | name == prefix + "*" ensures prefix == name[..|name| - 1] {
      }
    }
  }

  // The values that have a text, and those that count as absent.
  lemma ScalarTexts(s: string, items: seq<Value>, fields: map<string, Value>)
    ensures Scalar(Str(s)) == Some(s) && Scalar(Number(s)) == Some(s)
    ensures Scalar(Boolean(true)) == Some("true") && Scalar(Boolean(false)) == Some("false")
    ensures Scalar(List(items)) == Scalar(Record(fields)) == Scalar(Null) == None
    ensures !Falsy(List(items)) && !Falsy(Record(fields)) && Falsy(Null)
    ensures Falsy(Boolean(false)) && !Falsy(Boolean(true)) && (Falsy(Str(s)) <==> s == "")
    ensures Falsy(Number(s)) <==> s == "0" || s == "NaN"
  {
  }

  // The fields named in `ks`, as strings.
  function Picked(fields: map<string, Value>, ks: set<string>): map<string, string> {
    map k | k in fields && k in ks :: Shown(fields[k])
  }

  predicate ValidField(fields: map<string, Value>, name: string)
    requires name in fields
  {
    ValidName(name, false) && Scalar(fields[name]).Some?
  }

  // The values as strings; None if a name or a value is not allowed.
  function Strings(fields: map<string, Value>): (r: Option<map<string, string>>)
    ensures r.Some? ==> r.value.Keys == fields.Keys && forall k | k in r.value :: Settable(k)
  {
    if forall k | k in fields :: ValidField(fields, k)
    then Some(Picked(fields, fields.Keys)) else None
  }

  datatype CloneProps = CloneProps(copy: seq<string>, fixed: map<string, string>)

  predicate ValidPatterns(v: Value) {
    v.List? && forall e | e in v.items :: e.Str? && ValidName(e.s, true)
  }

  function Patterns(v: Value): (r: seq<string>)
    requires ValidPatterns(v)
    ensures |r| == |v.items| && forall i | 0 <= i < |r| :: ValidName(r[i], true)
  {
    seq(|v.items|, i requires 0 <= i < |v.items| => v.items[i].s)
  }

  function Validated(v: Value): Option<CloneProps> {
    if !v.Record? || (exists k | k in v.fields :: k != "copy" && k != "set") then None
    else if "copy" in v.fields && !ValidPatterns(v.fields["copy"]) then None
    else if "set" in v.fields && (!v.fields["set"].Record? || Strings(v.fields["set"].fields) == None) then None
    else Some(CloneProps(if "copy" in v.fields then Patterns(v.fields["copy"]) else [],
                         if "set" in v.fields then Strings(v.fields["set"].fields).value else map[]))
  }

  // The loop over the entries of an overlay object: `into` with them added.
  method AddStrings(into: map<string, string>, fields: map<string, Value>) returns (r: Option<map<string, string>>)
    ensures r == if Strings(fields) == None then None else Some(into + Strings(fields).value)
  {
    var m := into;
    var todo := fields.Keys;
    ghost var done: set<string> := {};
    assert into + Picked(fields, {}) == into;
    while todo != {}
      invariant todo <= fields.Keys && done == fields.Keys - todo
      invariant forall k | k in done :: ValidField(fields, k)
      invariant m == into + Picked(fields, done)
      decreases todo
    {
      var name :| name in todo;
      if !ValidName(name, false) || Scalar(fields[name]) == None {
        assert !ValidField(fields, name);
        return None;
      }
      assert Picked(fields, done + {name}) == Picked(fields, done)[name := Shown(fields[name])];
      m := m[name := Scalar(fields[name]).value];
      todo := todo - {name};
      done := done + {name};
    }
    assert done == fields.Keys;
    r := Some(m);
  }

  method ValidateCloneDatasetProperties(v: Value) returns (r: Option<CloneProps>)
    ensures r == Validated(v)
  {
    if !v.Record? || exists k | k in v.fields :: k != "copy" && k != "set" {
      return None;
    }
    var copy: seq<string> := [];
    var fixed: map<string, string> := map[];
    if "copy" in v.fields {
      var list := v.fields["copy"];
      if !list.List? {
        return None;
      }
      for i := 0 to |list.items|
        invariant |copy| == i
        invariant forall j | 0 <= j < i ::
                    list.items[j].Str? && ValidName(list.items[j].s, true) && copy[j] == list.items[j].s
      {
        var e := list.items[i];
        if !e.Str? || !ValidName(e.s, true) {
          assert e in list.items;
          return None;
        }
        copy := copy + [e.s];
      }
      assert copy == Patterns(list);
    }
    if "set" in v.fields {
      if !v.fields["set"].Record? {
        return None;
      }
      var s := AddStrings(map[], v.fields["set"].fields);
      if s == None {
        return None;
      }
      fixed := s.value;
      assert map[] + Strings(v.fields["set"].fields).value == Strings(v.fields["set"].fields).value;
    }
    r := Some(CloneProps(copy, fixed));
  }

  // The normalized object, as it is put back into the options.
  function Normal(p: CloneProps): Value {
    Record(map["copy" := List(seq(|p.copy|, i requires 0 <= i < |p.copy| => Str(p.copy[i]))),
               "set" := Record(map k | k in p.fixed :: Str(p.fixed[k]))])
  }

  predicate ValidProps(p: CloneProps) {
    (forall i | 0 <= i < |p.copy| :: ValidName(p.copy[i], true)) && forall k | k in p.fixed :: ValidName(k, false)
  }

  lemma ValidatedIsValid(v: Value)
    requires Validated(v).Some?
    ensures ValidProps(Validated(v).value)
  {
  }

  // Normalizing twice is normalizing once.
  lemma NormalIsValidated(p: CloneProps)
    requires ValidProps(p)
    ensures Validated(Normal(p)) == Some(p)
  {
    var list := Normal(p).fields["copy"];
    assert Patterns(list) == p.copy;
    var fields := Normal(p).fields["set"].fields;
    assert forall k | k in fields :: ValidField(fields, k);
    assert Strings(fields).value == p.fixed;
  }

  // ----------------------------------------------------------------- merging ---

  datatype Overlay = Overlay(blocksize: Option<Value>, properties: Option<Value>, clone: Option<Value>)

  datatype Zfs = Zfs(blocksize: Option<Value>, properties: map<string, string>, overlay: Option<map<string, string>>,
                     clone: Option<Value>)

  const NO_ZFS := Zfs(None, map[], None, None)

  // Every element once, where it first comes.
  function Dedup(s: seq<string>): seq<string> {
    if s == [] then []
    else
      var init, last := Dedup(s[..|s| - 1]), s[|s| - 1];
      if last in init then init else init + [last]
  }

  function Joined(a: CloneProps, b: CloneProps): CloneProps {
    CloneProps(Dedup(a.copy + b.copy), a.fixed + b.fixed)
  }

  // What an overlay's clone section is merged into.
  function CloneBase(clone: Option<Value>): Option<CloneProps> {
    if clone == None || Falsy(clone.value) then Some(CloneProps([], map[])) else Validated(clone.value)
  }

  function WithProperties(z: Zfs, v: Value): Option<Zfs> {
    if !v.Record? || Strings(v.fields) == None then None
    else Some(z.(overlay := Some(Under(z.overlay) + Strings(v.fields).value)))
  }

  function WithClone(z: Zfs, v: Value): Option<Zfs> {
    if !v.Record? || CloneBase(z.clone) == None || Validated(v) == None then None
    else Some(z.(clone := Some(Normal(Joined(CloneBase(z.clone).value, Validated(v).value)))))
  }

  function Apply(z: Zfs, o: Overlay): Option<Zfs> {
    var z1 := if o.blocksize.Some? then z.(blocksize := o.blocksize) else z;
    var z2 := if o.properties.Some? then WithProperties(z1, o.properties.value) else Some(z1);
    if z2 == None then None else if o.clone.Some? then WithClone(z2.value, o.clone.value) else z2
  }

  function ApplyAll(z: Zfs, os: seq<Overlay>): Option<Zfs> {
    if os == [] then Some(z)
    else
      var y := ApplyAll(z, os[..|os| - 1]);
      if y == None then None else Apply(y.value, os[|os| - 1])
  }

  function Normalized(z: Zfs): Option<Zfs> {
    if z.clone == None then Some(z)
    else if Validated(z.clone.value) == None then None
    else Some(z.(clone := Some(Normal(Validated(z.clone.value).value))))
  }

  function Merged(z: Zfs, os: seq<Overlay>): Option<Zfs> {
    var y := ApplyAll(z, os);
    if y == None then None else Normalized(y.value)
  }

  class ZfsOptions {
    var blocksize: Option<Value>
    var properties: map<string, string>
    var overlay: Option<map<string, string>>
    var clone: Option<Value>

    constructor (z: Zfs)
      ensures View() == z
    {
      blocksize, properties, overlay, clone := z.blocksize, z.properties, z.overlay, z.clone;
    }

    function View(): Zfs
      reads this
    {
      Zfs(blocksize, properties, overlay, clone)
    }
  }

  class Options {
    var zfs: ZfsOptions?

    constructor (zfs: ZfsOptions?)
      ensures this.zfs == zfs
    {
      this.zfs := zfs;
    }

    function View(): Zfs
      reads this, zfs
    {
      if zfs == null then NO_ZFS else zfs.View()
    }
  }

  method CloneDeep(options: Options) returns (copy: Options)
    ensures fresh(copy) && copy.zfs != null && fresh(copy.zfs) && copy.View() == options.View()
  {
    // a missing section is made here rather than when it is first written
    var zfs := new ZfsOptions(options.View());
    copy := new Options(zfs);
  }

  method ApplyOverlay(zfs: ZfsOptions, o: Overlay) returns (ok: bool)
    modifies zfs
    ensures ok <==> Apply(old(zfs.View()), o).Some?
    ensures ok ==> zfs.View() == Apply(old(zfs.View()), o).value
  {
    if o.blocksize.Some? {
      zfs.blocksize := o.blocksize;
    }
    if o.properties.Some? {
      if !o.properties.value.Record? {
        return false;
      }
      if zfs.overlay == None {
        zfs.overlay := Some(map[]);
      }
      var merged := AddStrings(zfs.overlay.value, o.properties.value.fields);
      if merged == None {
        return false;
      }
      zfs.overlay := merged;
    }
    if o.clone.Some? {
      if !o.clone.value.Record? {
        return false;
      }
      var current := if zfs.clone.Some? && !Falsy(zfs.clone.value) then zfs.clone.value else Record(map[]);
      var base := ValidateCloneDatasetProperties(current);
      if base == None {
        return false;
      }
      var extra := ValidateCloneDatasetProperties(o.clone.value);
      if extra == None {
        return false;
      }
      zfs.clone := Some(Normal(Joined(base.value, extra.value)));
    }
    ok := true;
  }

  // None of the objects the driver's options consist of is written to: there
  // is no modifies clause. Null stands for INVALID_ARGUMENT.
  method GetMergedDriverOptions(options: Options, overlays: seq<Overlay>) returns (merged: Options?)
    ensures merged == null <==> Merged(options.View(), overlays) == None
    ensures merged != null ==> fresh(merged) && merged.zfs != null && fresh(merged.zfs)
                               && merged.View() == Merged(options.View(), overlays).value
  {
    var driverOptions := CloneDeep(options);
    ghost var z := options.View();
    for i := 0 to |overlays|
      invariant fresh(driverOptions) && driverOptions.zfs != null && fresh(driverOptions.zfs)
      invariant ApplyAll(z, overlays[..i]) == Some(driverOptions.View())
    {
      assert overlays[..i + 1][..i] == overlays[..i];
      var ok := ApplyOverlay(driverOptions.zfs, overlays[i]);
      if !ok {
        RefusalStays(z, overlays, i + 1);
        return null;
      }
    }
    assert overlays[..|overlays|] == overlays;
    if driverOptions.zfs.clone.Some? {
      var normal := ValidateCloneDatasetProperties(driverOptions.zfs.clone.value);
      if normal == None {
        return null;
      }
      driverOptions.zfs.clone := Some(Normal(normal.value));
    }
    merged := driverOptions;
  }

  lemma {:induction false} RefusalStays(z: Zfs, os: seq<Overlay>, n: nat)
    requires n <= |os| && ApplyAll(z, os[..n]) == None
    ensures ApplyAll(z, os) == None
    decreases |os| - n
  {
    if n == |os| {
      assert os[..n] == os;
    } else {
      assert os[..n + 1][..n] == os[..n];
      RefusalStays(z, os, n + 1);
    }
  }

  // -------------------------------------------------- what merging amounts to ---

  predicate FineOverlay(o: Overlay) {
    && (o.properties.Some? ==> o.properties.value.Record? && Strings(o.properties.value.fields).Some?)
    && (o.clone.Some? ==> Validated(o.clone.value).Some?)
  }

  // The entries an overlay gives.
  function Entries(o: Overlay): (r: map<string, string>)
    ensures forall k | k in r :: Settable(k)
  {
    if o.properties.Some? && o.properties.value.Record? && Strings(o.properties.value.fields).Some?
    then Strings(o.properties.value.fields).value else map[]
  }

  function CloneEntries(o: Overlay): CloneProps {
    if o.clone.Some? && Validated(o.clone.value).Some? then Validated(o.clone.value).value else CloneProps([], map[])
  }

  function LastBlocksize(b: Option<Value>, os: seq<Overlay>): Option<Value> {
    if os == [] then b
    else if os[|os| - 1].blocksize.Some? then os[|os| - 1].blocksize else LastBlocksize(b, os[..|os| - 1])
  }

  predicate Lays(os: seq<Overlay>) {
    exists o | o in os :: o.properties.Some?
  }

  predicate Clones(os: seq<Overlay>) {
    exists o | o in os :: o.clone.Some?
  }

  // Entries of later overlays over those of earlier ones.
  function Laid(os: seq<Overlay>): (r: map<string, string>)
    ensures forall k | k in r :: Settable(k)
  {
    if os == [] then map[] else Laid(os[..|os| - 1]) + Entries(os[|os| - 1])
  }

  function FixedLaid(os: seq<Overlay>): map<string, string> {
    if os == [] then map[] else FixedLaid(os[..|os| - 1]) + CloneEntries(os[|os| - 1]).fixed
  }

  function CopyJoined(copy: seq<string>, os: seq<Overlay>): seq<string> {
    if os == [] then copy
    else
      var c, o := CopyJoined(copy, os[..|os| - 1]), os[|os| - 1];
      if o.clone.Some? then Dedup(c + CloneEntries(o).copy) else c
  }

  function CloneMerged(p: CloneProps, os: seq<Overlay>): CloneProps {
    CloneProps(CopyJoined(p.copy, os), p.fixed + FixedLaid(os))
  }

  predicate Fine(z: Zfs, os: seq<Overlay>) {
    (forall o | o in os :: FineOverlay(o)) && (Clones(os) ==> CloneBase(z.clone).Some?)
  }

  function Under(overlay: Option<map<string, string>>): map<string, string> {
    if overlay.Some? then overlay.value else map[]
  }

  function OverlayAfter(was: Option<map<string, string>>, os: seq<Overlay>): Option<map<string, string>> {
    if Lays(os) then Some(Under(was) + Laid(os)) else was
  }

  function CloneAfter(was: Option<Value>, os: seq<Overlay>): Option<Value> {
    if Clones(os) && CloneBase(was).Some? then Some(Normal(CloneMerged(CloneBase(was).value, os))) else was
  }

  function Summary(z: Zfs, os: seq<Overlay>): Zfs {
    Zfs(LastBlocksize(z.blocksize, os), z.properties, OverlayAfter(z.overlay, os), CloneAfter(z.clone, os))
  }

  lemma {:induction false} DedupFrom(s: seq<string>)
    ensures forall e :: e in Dedup(s) <==> e in s
  {
    if s != [] {
      DedupFrom(s[..|s| - 1]);
      assert s == s[..|s| - 1] + [s[|s| - 1]];
    }
  }

  lemma {:induction false} CloneMergedValid(p: CloneProps, os: seq<Overlay>)
    requires ValidProps(p)
    ensures ValidProps(CloneMerged(p, os))
  {
    if os != [] {
      var init, o := os[..|os| - 1], os[|os| - 1];
      CloneMergedValid(p, init);
      var c := CopyJoined(p.copy, init);
      DedupFrom(c + CloneEntries(o).copy);
      var d := Dedup(c + CloneEntries(o).copy);
      forall i | 0 <= i < |d| ensures ValidName(d[i], true) {
        assert d[i] in d;
      }
    }
  }

  // Applying the overlays one after the other fails just when one of them, or
  // the clone section they are merged into, is not valid.
  lemma {:induction false} ApplyAllIs(z: Zfs, os: seq<Overlay>)
    ensures ApplyAll(z, os).Some? <==> Fine(z, os)
    ensures Fine(z, os) ==> ApplyAll(z, os).value == Summary(z, os)
  {
    if os != [] {
      var init, o := os[..|os| - 1], os[|os| - 1];
      assert os == init + [o];
      ApplyAllIs(z, init);
      if Fine(z, init) {
        ApplyIs(z, init, o);
      }
    }
  }

  lemma {:induction false} NothingLaid(os: seq<Overlay>)
    requires !Lays(os)
    ensures Laid(os) == map[]
  {
    if os != [] {
      assert os[|os| - 1] in os;
      NothingLaid(os[..|os| - 1]);
    }
  }

  lemma OverlayStep(was: Option<map<string, string>>, init: seq<Overlay>, o: Overlay)
    ensures OverlayAfter(was, init + [o])
         == if o.properties.Some? then Some(Under(OverlayAfter(was, init)) + Entries(o)) else OverlayAfter(was, init)
  {
    assert (init + [o])[..|init|] == init;
    if !Lays(init) {
      NothingLaid(init);
    }
    Regroup(Under(was), Laid(init), Entries(o));
    Regroup(Laid(init), map[], map[]);
  }

  lemma Regroup(a: map<string, string>, b: map<string, string>, c: map<string, string>)
    ensures a + (b + c) == a + b + c
    ensures a + map[] == a && map[] + c == c
  {
  }

  lemma CloneStep(was: Option<Value>, init: seq<Overlay>, o: Overlay)
    requires CloneBase(was).Some?
    ensures CloneBase(CloneAfter(was, init)).Some?
    ensures CloneAfter(was, init + [o])
         == if o.clone.Some? then Some(Normal(Joined(CloneBase(CloneAfter(was, init)).value, CloneEntries(o))))
            else CloneAfter(was, init)
  {
    BaseAfter(was, init);
    MergedStep(CloneBase(was).value, init, o);
  }

  lemma MergedStep(p: CloneProps, init: seq<Overlay>, o: Overlay)
    ensures CloneMerged(p, init + [o])
         == if o.clone.Some? then Joined(CloneMerged(p, init), CloneEntries(o)) else CloneMerged(p, init)
  {
    assert (init + [o])[..|init|] == init;
    Regroup(p.fixed, FixedLaid(init), CloneEntries(o).fixed);
    Regroup(FixedLaid(init), map[], map[]);
  }

  // The clone section so far is what the next overlay is merged into.
  lemma BaseAfter(was: Option<Value>, os: seq<Overlay>)
    requires CloneBase(was).Some?
    ensures CloneBase(CloneAfter(was, os)) == Some(CloneMerged(CloneBase(was).value, os))
  {
    if Clones(os) {
      CloneMergedValid(CloneBase(was).value, os);
      NormalIsValidated(CloneMerged(CloneBase(was).value, os));
    } else {
      NothingCloned(os);
      Regroup(CloneBase(was).value.fixed, map[], map[]);
    }
  }

  lemma ApplyGives(z: Zfs, o: Overlay)
    ensures Apply(z, o).Some? <==> FineOverlay(o) && (o.clone.Some? ==> CloneBase(z.clone).Some?)
    ensures Apply(z, o).Some? ==>
              Apply(z, o).value
              == Zfs(if o.blocksize.Some? then o.blocksize else z.blocksize, z.properties,
                     if o.properties.Some? then Some(Under(z.overlay) + Entries(o)) else z.overlay,
                     if o.clone.Some? then Some(Normal(Joined(CloneBase(z.clone).value, CloneEntries(o)))) else z.clone)
  {
  }

  lemma ApplyIs(z: Zfs, init: seq<Overlay>, o: Overlay)
    requires Fine(z, init)
    ensures Apply(Summary(z, init), o).Some? <==> Fine(z, init + [o])
    ensures Fine(z, init + [o]) ==> Apply(Summary(z, init), o).value == Summary(z, init + [o])
  {
    ApplyGives(Summary(z, init), o);
    assert (init + [o])[..|init|] == init;
    OverlayStep(z.overlay, init, o);
    if CloneBase(z.clone).Some? {
      CloneStep(z.clone, init, o);
    }
  }

  lemma {:induction false} NothingCloned(os: seq<Overlay>)
    requires !Clones(os)
    ensures FixedLaid(os) == map[] && forall copy :: CopyJoined(copy, os) == copy
  {
    if os != [] {
      assert os[|os| - 1] in os;
      NothingCloned(os[..|os| - 1]);
    }
  }

  // ------------------------------------------------------------- idempotence ---

  predicate Distinct(s: seq<string>) {
    forall i, j | 0 <= i < j < |s| :: s[i] != s[j]
  }

  lemma {:induction false} DedupDistinct(s: seq<string>)
    ensures Distinct(Dedup(s))
  {
    if s != [] {
      DedupDistinct(s[..|s| - 1]);
    }
  }

  // Joining what is already there changes nothing.
  lemma {:induction false} DedupAbsorbs(s: seq<string>, t: seq<string>)
    requires Distinct(s) && forall e | e in t :: e in s
    ensures Dedup(s + t) == s
    decreases |s| + |t|
  {
    if t != [] {
      var n := |t| - 1;
      assert (s + t)[..|s| + n] == s + t[..n];
      assert t[n] in t && forall e | e in t[..n] :: e in t;
      DedupAbsorbs(s, t[..n]);
    } else if s != [] {
      var n := |s| - 1;
      assert s + t == s && s[..n] + [] == s[..n];
      DedupAbsorbs(s[..n], []);
      assert s[n] !in s[..n];
    }
  }

  lemma {:induction false} CopyJoinedHasAll(copy: seq<string>, os: seq<Overlay>)
    ensures Clones(os) ==> Distinct(CopyJoined(copy, os))
    ensures forall e | e in copy :: e in CopyJoined(copy, os)
    ensures forall o, e | o in os && e in CloneEntries(o).copy :: e in CopyJoined(copy, os)
    ensures forall e | e in CopyJoined(copy, os) :: e in copy || exists o | o in os :: e in CloneEntries(o).copy
  {
    if os != [] {
      var init, o := os[..|os| - 1], os[|os| - 1];
      assert os == init + [o];
      CopyJoinedHasAll(copy, init);
      var c := CopyJoined(copy, init);
      if o.clone.Some? {
        DedupFrom(c + CloneEntries(o).copy);
        DedupDistinct(c + CloneEntries(o).copy);
      }
    }
  }

  lemma {:induction false} CopyAbsorbs(copy: seq<string>, os: seq<Overlay>)
    requires Distinct(copy) && forall o, e | o in os && e in CloneEntries(o).copy :: e in copy
    ensures CopyJoined(copy, os) == copy
  {
    if os != [] {
      var init, o := os[..|os| - 1], os[|os| - 1];
      assert o in os && forall x | x in init :: x in os;
      CopyAbsorbs(copy, init);
      DedupAbsorbs(copy, CloneEntries(o).copy);
    }
  }

  lemma {:induction false} BlocksizeAbsorbs(b: Option<Value>, os: seq<Overlay>)
    ensures LastBlocksize(LastBlocksize(b, os), os) == LastBlocksize(b, os)
  {
    if os != [] && os[|os| - 1].blocksize == None {
      BlocksizeAbsorbs(b, os[..|os| - 1]);
    }
  }

  lemma CloneAbsorbs(p: CloneProps, os: seq<Overlay>)
    requires Clones(os)
    ensures CloneMerged(CloneMerged(p, os), os) == CloneMerged(p, os)
  {
    CopyJoinedHasAll(p.copy, os);
    CopyAbsorbs(CopyJoined(p.copy, os), os);
    assert p.fixed + FixedLaid(os) + FixedLaid(os) == p.fixed + FixedLaid(os);
  }

  // The result of a merge is normalized.
  lemma MergedIsNormal(z: Zfs, os: seq<Overlay>)
    requires Merged(z, os).Some?
    ensures Normalized(Merged(z, os).value) == Merged(z, os)
  {
    var y := ApplyAll(z, os).value;
    if y.clone.Some? {
      ValidatedIsValid(y.clone.value);
      NormalIsValidated(Validated(y.clone.value).value);
    }
  }

  // With clone sections in the overlays, normalizing has nothing left to do.
  lemma MergedIsSummary(z: Zfs, os: seq<Overlay>)
    requires Fine(z, os) && (Clones(os) || z.clone == None)
    ensures Merged(z, os) == Some(Summary(z, os))
  {
    ApplyAllIs(z, os);
    if Clones(os) {
      CloneMergedValid(CloneBase(z.clone).value, os);
      NormalIsValidated(CloneMerged(CloneBase(z.clone).value, os));
    }
  }

  /** Every merge ends with a clone section in normal form, also when only the driver has one. */
  lemma ResultIsNormal(z: Zfs, os: seq<Overlay>)
    requires Merged(z, os).Some?
    ensures var clone := Merged(z, os).value.clone;
            && (clone.Some? ==> Validated(clone.value).Some? && clone.value == Normal(Validated(clone.value).value))
            && (z.clone.Some? && !Clones(os) ==> clone.Some? && Validated(clone.value) == Validated(z.clone.value))
  {
    ApplyAllIs(z, os);
    if Clones(os) {
      MergedIsSummary(z, os);
      var p := CloneMerged(CloneBase(z.clone).value, os);
      CloneMergedValid(CloneBase(z.clone).value, os);
      NormalIsValidated(p);
    } else if z.clone.Some? {
      ValidatedIsValid(z.clone.value);
      NormalIsValidated(Validated(z.clone.value).value);
    }
  }

  /** Merging the same overlays again changes nothing. */
  lemma MergingIsIdempotent(z: Zfs, os: seq<Overlay>)
    requires Merged(z, os).Some?
    ensures Merged(Merged(z, os).value, os) == Merged(z, os)
  {
    ApplyAllIs(z, os);
    var m := Merged(z, os).value;
    BlocksizeAbsorbs(z.blocksize, os);
    assert Under(z.overlay) + Laid(os) + Laid(os) == Under(z.overlay) + Laid(os);
    if Clones(os) {
      MergedIsSummary(z, os);
      BaseAfter(z.clone, os);
      CloneAbsorbs(CloneBase(z.clone).value, os);
      MergedIsSummary(m, os);
    } else {
      ApplyAllIs(m, os);
      MergedIsNormal(z, os);
    }
  }

  /**
   A merge is refused exactly when an overlay is not valid, or the driver's own
   clone section is not: one that counts as absent is replaced if an overlay
   has a clone section, and refused otherwise.
   */
  lemma MergeRefusesExactly(z: Zfs, os: seq<Overlay>)
    ensures Merged(z, os).Some?
       <==> (forall o | o in os :: FineOverlay(o))
            && (z.clone == None || Validated(z.clone.value).Some? || (Clones(os) && Falsy(z.clone.value)))
  {
    ApplyAllIs(z, os);
    if Fine(z, os) && Clones(os) {
      MergedIsSummary(z, os);
    }
  }

  // ---------------------------------------------- properties of the snapshot ---

  // A row of `zfs get`; the value is absent when it is not a string.
  datatype Property = Property(value: Option<string>, source: string)

  predicate Matches(pattern: string, name: string) {
    pattern == "*" || (EndsWith(pattern, "*") && StartsWith(name, pattern[..|pattern| - 1])) || pattern == name
  }

  /** A pattern matches the names that begin with what is before its final '*', any other entry just itself. */
  lemma MatchesExactly(pattern: string, name: string)
    ensures Matches(pattern, name) <==>
              name == pattern || exists prefix, rest :: pattern == prefix + "*" && name == prefix + rest
  {
    var n := |pattern| - 1;
    if EndsWith(pattern, "*") && StartsWith(name, pattern[..n]) {
      assert pattern == pattern[..n] + "*" && name == pattern[..n] + name[n..];
    }
    if pattern == "*" {
      assert pattern == "" + "*" && name == "" + name;
    }
    forall prefix, rest | pattern == prefix + "*" && name == prefix + rest ensures Matches(pattern, name) {
      assert pattern[..n] == prefix;
    }
  }

  // substring(0, indexOf("@"))
  function DatasetOf(snapshot: string): string {
    if '@' in snapshot then BeforeFirst(snapshot, '@') else ""
  }

  // Set on the source volume itself, and asked for.
  predicate Selected(name: string, p: Property, patterns: seq<string>, snapshot: string) {
    && Settable(name) && p.value.Some? && p.value.value != "-"
    && p.source in {"local", "received", "inherited from " + DatasetOf(snapshot)}
    && exists x | x in patterns :: Matches(x, name)
  }

  function CopiedFrom(properties: map<string, Property>, patterns: seq<string>, snapshot: string)
    : (r: map<string, string>)
    ensures forall k | k in r :: Settable(k)
  {
    map k | k in properties && Selected(k, properties[k], patterns, snapshot) :: properties[k].value.value
  }

  method SelectCopiedDatasetProperties(properties: map<string, Property>, patterns: seq<string>, snapshot: string)
    returns (copied: map<string, string>)
    ensures copied == CopiedFrom(properties, patterns, snapshot)
  {
    copied := map[];
    if patterns == [] {
      return;
    }
    var todo := properties.Keys;
    while todo != {}
      invariant todo <= properties.Keys
      invariant forall k :: k in copied <==>
                  k in properties && k !in todo && Selected(k, properties[k], patterns, snapshot)
      invariant forall k | k in copied :: copied[k] == properties[k].value.value
      decreases todo
    {
      var name :| name in todo;
      todo := todo - {name};
      var p := properties[name];
      if ':' !in name {
        continue;
      }
      if StartsWith(name, RESERVED) {
        continue;
      }
      if p.value == None || p.value.value == "-" {
        continue;
      }
      if !(p.source == "local" || p.source == "received" || p.source == "inherited from " + DatasetOf(snapshot)) {
        continue;
      }
      var matches := MatchesSome(patterns, name);
      if matches {
        copied := copied[name := p.value.value];
      }
    }
  }

  method MatchesSome(patterns: seq<string>, name: string) returns (matches: bool)
    ensures matches <==> exists x | x in patterns :: Matches(x, name)
  {
    for i := 0 to |patterns|
      invariant forall x | x in patterns[..i] :: !Matches(x, name)
    {
      if Matches(patterns[i], name) {
        return true;
      }
    }
    assert patterns[..|patterns|] == patterns;
    matches := false;
  }

  // The dataset a snapshot is of, by its name.
  lemma DatasetOfIs(dataset: string, name: string)
    requires '@' !in dataset
    ensures DatasetOf(dataset + "@" + name) == dataset
  {
    CutAtFirst(dataset, '@', name);
    assert dataset + "@" + name == dataset + ['@'] + name;
  }

  /**
   Exactly what is copied from a snapshot: user properties outside the driver's
   namespace, with a value, set on the source volume itself rather than above it,
   and matched by an entry of the list.
   */
  lemma CopiedExactly(properties: map<string, Property>, patterns: seq<string>, dataset: string, name: string,
                      k: string)
    requires '@' !in dataset
    ensures var copied := CopiedFrom(properties, patterns, dataset + "@" + name);
            && (k in copied <==>
                  && k in properties && ':' in k && !("democratic-csi:" <= k)
                  && properties[k].value.Some? && properties[k].value != Some("-")
                  && (properties[k].source == "local" || properties[k].source == "received"
                      || properties[k].source == "inherited from " + dataset)
                  && exists x | x in patterns :: Matches(x, k))
            && (k in copied ==> Some(copied[k]) == properties[k].value)
  {
    DatasetOfIs(dataset, name);
  }

  // ---------------------------------------------------------------- layering ---

  function Rendered(m: map<string, string>, render: string -> string): (r: map<string, string>)
    ensures r.Keys == m.Keys
  {
    map k | k in m :: render(m[k])
  }

  // `snapshot` and `properties`: the source snapshot and what `zfs get all`
  // says of it; `render`: the templates, in the context of the request.
  function Built(clone: Option<CloneProps>, properties: map<string, Property>, snapshot: string,
                 render: string -> string)
    : map<string, string>
  {
    if clone == None then map[]
    else CopiedFrom(properties, clone.value.copy, snapshot) + Rendered(clone.value.fixed, render)
  }

  method BuildCloneDatasetProperties(clone: Option<CloneProps>, properties: map<string, Property>, snapshot: string,
                                     render: string -> string)
    returns (props: map<string, string>)
    ensures props == Built(clone, properties, snapshot, render)
  {
    props := map[];
    if clone.Some? && |clone.value.copy| > 0 {
      props := SelectCopiedDatasetProperties(properties, clone.value.copy, snapshot);
    }
    if clone.Some? {
      assert clone.value.copy == [] ==> CopiedFrom(properties, clone.value.copy, snapshot) == map[];
      var set' := RenderAll(clone.value.fixed, render);
      props := props + set';
    }
  }

  method RenderAll(m: map<string, string>, render: string -> string) returns (r: map<string, string>)
    ensures r == Rendered(m, render)
  {
    r := map[];
    var todo := m.Keys;
    while todo != {}
      invariant todo <= m.Keys && r.Keys == m.Keys - todo
      invariant forall k | k in r :: r[k] == render(m[k])
      decreases todo
    {
      var name :| name in todo;
      r := r[name := render(m[name])];
      todo := todo - {name};
    }
  }

  const UNDESIRED := {"aclmode", "aclinherit", "acltype", "casesensitivity"}

  // What a clone is created with. `own`: the properties the driver itself sets,
  // all in its namespace or without a colon.
  method ClonePropertiesOf(z: Zfs, own: map<string, string>, clone: Option<CloneProps>,
                           properties: map<string, Property>, snapshot: string, render: string -> string)
    returns (volume: map<string, string>, full: map<string, string>, kept: map<string, string>)
    ensures volume == Rendered(z.properties, render) + own
    ensures full == volume + Built(clone, properties, snapshot, render) + Rendered(Under(z.overlay), render)
    ensures kept == full - UNDESIRED
  {
    volume := RenderAll(z.properties, render);
    var overlay := RenderAll(Under(z.overlay), render);
    volume := volume + own;
    var built := BuildCloneDatasetProperties(clone, properties, snapshot, render);
    full := volume + built + overlay;
    kept := full - UNDESIRED;
  }

  function Look(m: map<string, string>, k: string): Option<string> {
    if k in m then Some(m[k]) else None
  }

  function Else(a: Option<string>, b: Option<string>): Option<string> {
    if a.Some? then a else b
  }

  function Shaped(a: Option<string>, render: string -> string): Option<string> {
    if a.Some? then Some(render(a.value)) else None
  }

  // The set values of a clone section, if there is one.
  function Fixed(clone: Option<Value>): map<string, string> {
    if clone.Some? && Validated(clone.value).Some? then Validated(clone.value).value.fixed else map[]
  }

  lemma MergedOverlay(z: Zfs, os: seq<Overlay>)
    requires Merged(z, os).Some?
    ensures var m := Merged(z, os).value;
            && m.properties == z.properties && m.overlay == OverlayAfter(z.overlay, os)
            && (m.clone.Some? <==> z.clone.Some? || Clones(os))
  {
    ApplyAllIs(z, os);
  }

  lemma MergedFixed(z: Zfs, os: seq<Overlay>)
    requires Merged(z, os).Some?
    ensures var clone := Merged(z, os).value.clone;
            && (clone.Some? ==> Validated(clone.value).Some?)
            && Fixed(clone) == Fixed(z.clone) + FixedLaid(os)
  {
    ApplyAllIs(z, os);
    if Clones(os) {
      MergedIsSummary(z, os);
      var p := CloneMerged(CloneBase(z.clone).value, os);
      CloneMergedValid(CloneBase(z.clone).value, os);
      NormalIsValidated(p);
    } else {
      NothingCloned(os);
      Regroup(Fixed(z.clone), map[], map[]);
      if z.clone.Some? {
        ValidatedIsValid(z.clone.value);
        NormalIsValidated(Validated(z.clone.value).value);
      }
    }
  }

  lemma PairOf(a: Overlay, b: Overlay)
    ensures Laid([a, b]) == Entries(a) + Entries(b)
    ensures FixedLaid([a, b]) == CloneEntries(a).fixed + CloneEntries(b).fixed
    ensures forall o :: o in [a, b] <==> o == a || o == b
  {
    assert [a, b][..1] == [a] && [a][..0] == [];
    Regroup(map[], map[], Entries(a));
    Regroup(map[], map[], CloneEntries(a).fixed);
    assert Laid([a]) == Entries(a);
    assert FixedLaid([a]) == CloneEntries(a).fixed;
  }

  lemma PairOverlay(was: Option<map<string, string>>, a: Overlay, b: Overlay)
    ensures Under(OverlayAfter(was, [a, b])) == Under(was) + Entries(a) + Entries(b)
  {
    PairOf(a, b);
    if !Lays([a, b]) {
      NothingLaid([a, b]);
    }
    Regroup(Under(was), Entries(a), Entries(b));
  }

  // The value a source of properties gives, templates rendered.
  function Given(m: map<string, string>, k: string, render: string -> string): Option<string> {
    Shaped(Look(m, k), render)
  }

  /**
   The layers of a new volume's properties. A name without a colon, or in the
   driver's namespace, keeps the value the driver gave it. Any other takes the
   PVC's value over the StorageClass's, that over `set` (PVC, StorageClass,
   driver), that over the value copied from the source, that over the driver's.
   */
  lemma Layering(z: Zfs, class': Overlay, claim: Overlay, own: map<string, string>, properties: map<string, Property>,
                 snapshot: string, render: string -> string, k: string)
    requires Merged(z, [class', claim]).Some? && z.overlay == None
    ensures var m := Merged(z, [class', claim]).value;
            var clone := if m.clone.Some? then Validated(m.clone.value) else None;
            var volume := Rendered(m.properties, render) + own;
            var full := volume + Built(clone, properties, snapshot, render) + Rendered(Under(m.overlay), render);
            var copied := if clone.Some? then CopiedFrom(properties, clone.value.copy, snapshot) else map[];
            if !Settable(k) then Look(full, k) == Look(volume, k)
            else Look(full, k) == Else(Given(Entries(claim), k, render),
                                  Else(Given(Entries(class'), k, render),
                                  Else(Given(CloneEntries(claim).fixed, k, render),
                                  Else(Given(CloneEntries(class').fixed, k, render),
                                  Else(Given(Fixed(z.clone), k, render),
                                  Else(Look(copied, k), Look(volume, k)))))))
  {
    var m := Merged(z, [class', claim]).value;
    var clone := if m.clone.Some? then Validated(m.clone.value) else None;
    MergedOverlay(z, [class', claim]);
    OverlayLayers(class', claim, k, render);
    BuiltLayers(z, class', claim, properties, snapshot, render, k);
    ThreeLayers(Rendered(m.properties, render) + own, Built(clone, properties, snapshot, render),
                Rendered(Under(m.overlay), render), k);
  }

  lemma ThreeLayers(volume: map<string, string>, built: map<string, string>, overlay: map<string, string>, k: string)
    requires (forall x | x in built :: Settable(x)) && (forall x | x in overlay :: Settable(x))
    ensures if !Settable(k) then Look(volume + built + overlay, k) == Look(volume, k)
            else Look(volume + built + overlay, k) == Else(Look(overlay, k), Else(Look(built, k), Look(volume, k)))
  {
  }

  lemma OverlayLayers(class': Overlay, claim: Overlay, k: string, render: string -> string)
    ensures var overlay := Rendered(Under(OverlayAfter(None, [class', claim])), render);
            && (forall x | x in overlay :: Settable(x))
            && Look(overlay, k) == Else(Given(Entries(claim), k, render), Given(Entries(class'), k, render))
  {
    PairOverlay(None, class', claim);
    Regroup(map[], map[], Entries(class'));
  }

  lemma GivenThree(a: map<string, string>, b: map<string, string>, c: map<string, string>, k: string,
                   render: string -> string)
    ensures Given(a + b + c, k, render) == Else(Given(c, k, render), Else(Given(b, k, render), Given(a, k, render)))
  {
  }

  lemma BuiltLook(clone: CloneProps, properties: map<string, Property>, snapshot: string, render: string -> string,
                  k: string)
    requires forall x | x in clone.fixed :: Settable(x)
    ensures var built := Built(Some(clone), properties, snapshot, render);
            && (forall x | x in built :: Settable(x))
            && Look(built, k)
               == Else(Given(clone.fixed, k, render), Look(CopiedFrom(properties, clone.copy, snapshot), k))
  {
  }

  lemma BuiltOf(clone: Option<Value>, a: map<string, string>, b: map<string, string>, c: map<string, string>,
                properties: map<string, Property>, snapshot: string, render: string -> string, k: string)
    requires clone.Some? ==> Validated(clone.value).Some?
    requires Fixed(clone) == a + b + c
    ensures var v := if clone.Some? then Validated(clone.value) else None;
            var built := Built(v, properties, snapshot, render);
            var copied := if v.Some? then CopiedFrom(properties, v.value.copy, snapshot) else map[];
            && (forall x | x in built :: Settable(x))
            && Look(built, k)
               == Else(Else(Given(c, k, render), Else(Given(b, k, render), Given(a, k, render))), Look(copied, k))
  {
    GivenThree(a, b, c, k, render);
    if clone.Some? {
      BuiltLook(Validated(clone.value).value, properties, snapshot, render, k);
    }
  }

  lemma BuiltLayers(z: Zfs, class': Overlay, claim: Overlay, properties: map<string, Property>, snapshot: string,
                    render: string -> string, k: string)
    requires Merged(z, [class', claim]).Some?
    ensures var m := Merged(z, [class', claim]).value;
            var clone := if m.clone.Some? then Validated(m.clone.value) else None;
            var built := Built(clone, properties, snapshot, render);
            var copied := if clone.Some? then CopiedFrom(properties, clone.value.copy, snapshot) else map[];
            && (forall x | x in built :: Settable(x))
            && Look(built, k) == Else(Given(CloneEntries(claim).fixed, k, render),
                                 Else(Given(CloneEntries(class').fixed, k, render),
                                 Else(Given(Fixed(z.clone), k, render), Look(copied, k))))
  {
    MergedFixed(z, [class', claim]);
    PairOf(class', claim);
    Regroup(Fixed(z.clone), CloneEntries(class').fixed, CloneEntries(claim).fixed);
    BuiltOf(Merged(z, [class', claim]).value.clone,
            Fixed(z.clone), CloneEntries(class').fixed, CloneEntries(claim).fixed,
            properties, snapshot, render, k);
  }

  // Dropping the properties a clone may not be given touches no user property.
  lemma UndesiredAreNotUsers(m: map<string, string>, k: string)
    ensures ':' in k ==> Look(m - UNDESIRED, k) == Look(m, k)
    ensures Look(m - UNDESIRED, k)
         == if k in {"aclmode", "aclinherit", "acltype", "casesensitivity"} then None else Look(m, k)
  {
  }
}
