/**
 Reading the output of `iscsiadm -m session -P 3`: lines are grouped by
 session (the tool prints a target once for all its sessions), and each group
 is read into a session object. None stands for the TypeError the code would
 throw on lines it does not expect.
 */
module SessionDetails {
  import opened Wrappers
  import opened Text

  // -------------------------------------------------------------- grouping ---

  predicate IsTargetLine(line: string) {
    StartsWith(line, "Target:")
  }

  predicate IsPortalLine(line: string) {
    !IsTargetLine(line) && StartsWith(Trim(line), "Current Portal:")
  }

  // `orphaned`: a portal line came before any target line, so some group
  // starts with an undefined line.
  datatype Grouping = Grouping(target: Option<string>, done: seq<seq<string>>, current: seq<string>, orphaned: bool)

  const NO_GROUPS := Grouping(None, [], [], false)

  function Flush(g: Grouping): seq<seq<string>> {
    if g.current == [] then g.done else g.done + [g.current]
  }

  function Gather(g: Grouping, line: string): Grouping {
    if IsTargetLine(line) then g.(target := Some(line))
    else if IsPortalLine(line) then
      if g.target == None then g.(done := Flush(g), current := [line], orphaned := true)
      else g.(done := Flush(g), current := [g.target.value, line])
    else g.(current := g.current + [line])
  }

  function GatherAll(g: Grouping, lines: seq<string>): Grouping {
    if lines == [] then g else Gather(GatherAll(g, lines[..|lines| - 1]), lines[|lines| - 1])
  }

  method GroupLines(entries: seq<string>) returns (groups: Option<seq<seq<string>>>)
    ensures var g := GatherAll(NO_GROUPS, entries);
            groups == if g.orphaned then None else if entries == [] then Some([]) else Some(g.done + [g.current])
  {
    var currentTarget: Option<string> := None;
    var sessionGroups: seq<seq<string>> := [];
    var currentSession: seq<string> := [];
    var orphaned := false;
    ghost var done: seq<seq<string>> := [];
    for i := 0 to |entries|
      invariant GatherAll(NO_GROUPS, entries[..i]) == Grouping(currentTarget, done, currentSession, orphaned)
      invariant sessionGroups == if i > 0 && i == |entries| then done + [currentSession] else done
    {
      assert entries[..i + 1][..i] == entries[..i];
      var entry := entries[i];
      if StartsWith(entry, "Target:") {
        currentTarget := Some(entry);
      } else if StartsWith(Trim(entry), "Current Portal:") {
        if |currentSession| > 0 {
          sessionGroups := sessionGroups + [currentSession];
          done := done + [currentSession];
        }
        if currentTarget == None {
          orphaned := true;
          currentSession := [entry];
        } else {
          currentSession := [currentTarget.value, entry];
        }
      } else {
        currentSession := currentSession + [entry];
      }
      if i + 1 == |entries| {
        sessionGroups := sessionGroups + [currentSession];
      }
    }
    assert entries[..|entries|] == entries;
    groups := if orphaned then None else Some(sessionGroups);
  }

  // ------------------------------------------------------ one session group ---

  datatype Device = Device(channel: Option<string>, id: Option<string>, lun: Option<string>, disk: string,
                           state: string)

  datatype Host = Host(number: string, state: string, devices: Option<seq<Device>>)

  datatype Entry = Plain(text: string) | HostEntry(host: Host)

  datatype Field = Line(text: string) | Section(entries: map<string, Entry>)

  type Session = map<string, Field>

  predicate IsWordChar(c: char) {
    'a' <= c <= 'z' || 'A' <= c <= 'Z' || '0' <= c <= '9' || c == '_'
  }

  // replace(/\W/g, "")
  function StripNonWord(s: string): string {
    if s == "" then "" else (if IsWordChar(s[0]) then [s[0]] else "") + StripNonWord(s[1..])
  }

  // replace(/ /g, "_")
  function Underscore(s: string): string {
    seq(|s|, i requires 0 <= i < |s| => if s[i] == ' ' then '_' else s[i])
  }

  function KeyOf(line: string): string {
    StripNonWord(Underscore(Trim(BeforeFirst(line, ':'))))
  }

  function ValueOf(line: string): string {
    Trim(AfterFirst(line, ':'))
  }

  // The first character lowered, then each capital to '_' and its lower case.
  function Snake(s: string): string {
    if s == "" then "" else [LowerChar(s[0])] + SnakeRest(s[1..])
  }

  function SnakeRest(s: string): string {
    if s == "" then ""
    else (if 'A' <= s[0] <= 'Z' then ['_', LowerChar(s[0])] else [s[0]]) + SnakeRest(s[1..])
  }

  // The line is made of stars only.
  predicate IsRuler(line: string) {
    line != "" && forall c | c in line :: c == '*'
  }

  function SectionName(title: string): string {
    StripNonWord(Underscore(Lower(Trim(title))))
  }

  const DEVICES := "attached_scsi_devices"

  const NEGOTIATED := "negotiated_iscsi_params"

  function EntryKey(section: string, key: string): string {
    Lower(if section == NEGOTIATED then Snake(key) else key)
  }

  // session[section] = session[section] || {}, then a write into it.
  function Put(s: Session, section: string, key: string, e: Entry): Option<Session> {
    if section !in s || s[section] == Line("") then Some(s[section := Section(map[key := e])])
    else match s[section]
      case Section(entries) => Some(s[section := Section(entries[key := e])])
      case Line(_) => None
  }

  function Part(parts: seq<string>, i: nat): Option<string> {
    if i < |parts| then Some(parts[i]) else None
  }

  // A pair of lines about one device.
  function ReadDevice(line1: string, line2: string): Option<Device> {
    var p1, p2 := Split(line1, ' '), Split(line2, ' ');
    if |p2| <= 3 then None
    else Some(Device(Part(p1, 2), Part(p1, 4), Part(p1, 6), BeforeFirst(p2[3], '\t'),
                     ValueOf(AfterFirst(Trim(line2), '\t'))))
  }

  predicate IsDeviceLine(line: string) {
    line != "" && StartsWith(Trim(line), "scsi")
  }

  datatype Devices = Devices(list: Option<seq<Device>>, rest: seq<string>) | BadDevice

  // The device lines at the start of `lines`, after those in `list`.
  function TakeDevices(list: Option<seq<Device>>, lines: seq<string>): (r: Devices)
    ensures r.Devices? ==> |r.rest| <= |lines|
    decreases |lines|
  {
    if lines == [] || !IsDeviceLine(lines[0]) then Devices(list, lines)
    else
      var sofar := if list.Some? then list.value else [];
      if |lines| == 1 then Devices(Some(sofar), [])
      else if lines[1] == "" then TakeDevices(Some(sofar), lines[2..])
      else
        var d := ReadDevice(lines[0], lines[1]);
        if d == None then BadDevice else TakeDevices(Some(sofar + [d.value]), lines[2..])
  }

  function ReadHost(value: string, devices: Option<seq<Device>>): Entry {
    HostEntry(Host(BeforeFirst(value, '\t'), ValueOf(AfterFirst(value, '\t')), devices))
  }

  // The rest of a group, read in a section ("" before the first one).
  function ReadLines(lines: seq<string>, section: string, s: Session): Option<Session>
    decreases |lines|
  {
    if lines == [] then Some(s)
    else
      var line := Trim(lines[0]);
      if IsRuler(line) then
        if |lines| == 1 then None
        else ReadLines(if |lines| >= 3 then lines[3..] else [], SectionName(lines[1]), s)
      else if section == "" then
        var key := Lower(KeyOf(line));
        var value := if key == "target" then Split(ValueOf(line), ' ')[0] else ValueOf(line);
        ReadLines(lines[1..], section, s[Trim(key) := Line(Trim(value))])
      else if section == DEVICES && Lower(KeyOf(line)) == "host_number" then
        match TakeDevices(None, lines[1..])
        case BadDevice => None
        case Devices(list, rest) =>
          var t := Put(s, section, "host", ReadHost(ValueOf(line), list));
          if t == None then None else ReadLines(rest, section, t.value)
      else
        var t := Put(s, section, EntryKey(section, KeyOf(line)), Plain(ValueOf(line)));
        if t == None then None else ReadLines(lines[1..], section, t.value)
  }

  // The inner loop: the devices whose lines start at `from`, and where they end.
  method ReadDevices(lines: seq<string>, from: nat) returns (devices: Option<seq<Device>>, k: nat, ok: bool)
    requires from <= |lines|
    ensures ok ==> from <= k <= |lines| && TakeDevices(None, lines[from..]) == Devices(devices, lines[k..])
    ensures !ok ==> TakeDevices(None, lines[from..]) == BadDevice
  {
    devices, k, ok := None, from, true;
    while k < |lines| && IsDeviceLine(lines[k])
      invariant from <= k <= |lines|
      invariant TakeDevices(devices, lines[k..]) == TakeDevices(None, lines[from..])
      decreases |lines| - k
    {
      var list := if devices.Some? then devices.value else [];
      if k + 1 < |lines| {
        assert lines[k..][2..] == lines[k + 2..];
        if lines[k + 1] != "" {
          var d := ReadDevice(lines[k], lines[k + 1]);
          if d == None {
            ok := false;
            return;
          }
          list := list + [d.value];
        }
      }
      devices := Some(list);
      k := if k + 2 <= |lines| then k + 2 else |lines|;
    }
  }

  // The loop over a group; index j runs over its lines.
  method ReadGroup(lines: seq<string>) returns (r: Option<Session>)
    ensures r == ReadLines(lines, "", map[])
  {
    var session: Session := map[];
    var section := "";
    var j := 0;
    while j < |lines|
      invariant 0 <= j <= |lines|
      invariant ReadLines(lines[j..], section, session) == ReadLines(lines, "", map[])
      decreases |lines| - j
    {
      var line := Trim(lines[j]);
      if IsRuler(line) {
        if j + 1 >= |lines| {
          return None;
        }
        section := SectionName(lines[j + 1]);
        assert |lines[j..]| >= 3 ==> lines[j..][3..] == lines[j + 3..];
        j := if j + 3 <= |lines| then j + 3 else |lines|;
        continue;
      }
      var key := KeyOf(line);
      var value := ValueOf(line);
      assert lines[j..][1..] == lines[j + 1..];
      if section != "" {
        if section == DEVICES && Lower(key) == "host_number" {
          var devices, k, ok := ReadDevices(lines, j + 1);
          if !ok {
            return None;
          }
          var t := Put(session, section, "host", ReadHost(value, devices));
          if t == None {
            return None;
          }
          session := t.value;
          j := k;
          continue;
        }
        var t := Put(session, section, EntryKey(section, key), Plain(value));
        if t == None {
          return None;
        }
        session := t.value;
      } else {
        key := Lower(key);
        if key == "target" {
          value := Split(value, ' ')[0];
        }
        session := session[Trim(key) := Line(Trim(value))];
      }
      j := j + 1;
    }
    r := Some(session);
  }

  function ReadOne(group: seq<string>): Option<Session> {
    ReadLines(group, "", map[])
  }

  // All the results, unless one is missing.
  function Collect<T, U>(xs: seq<T>, f: T -> Option<U>): Option<seq<U>> {
    if xs == [] then Some([])
    else
      var init, last := Collect(xs[..|xs| - 1], f), f(xs[|xs| - 1]);
      if init == None || last == None then None else Some(init.value + [last.value])
  }

  function ReadGroups(groups: seq<seq<string>>): Option<seq<Session>> {
    Collect(groups, ReadOne)
  }

  function Details(entries: seq<string>): Option<seq<Session>> {
    var g := GatherAll(NO_GROUPS, entries);
    if g.orphaned then None else if entries == [] then Some([]) else ReadGroups(g.done + [g.current])
  }

  // The command's output: lines, the first two of which are dropped.
  function DetailsOfText(stdout: string): Option<seq<Session>> {
    if stdout == "" then Some([])
    else
      var lines := Split(Trim(stdout), '\n');
      Details(if |lines| >= 2 then lines[2..] else [])
  }

  // Everything after the command has succeeded (or found no session).
  method GetSessionsDetails(stdout: string) returns (sessions: Option<seq<Session>>)
    ensures sessions == DetailsOfText(stdout)
  {
    if stdout == "" {
      return Some([]);
    }
    var entries := Split(Trim(stdout), '\n');
    entries := entries[1..];
    if |entries| > 0 {
      entries := entries[1..];
    }
    var groups := GroupLines(entries);
    if groups == None {
      return None;
    }
    var list: seq<Session> := [];
    for i := 0 to |groups.value|
      invariant ReadGroups(groups.value[..i]) == Some(list)
    {
      assert groups.value[..i + 1][..i] == groups.value[..i];
      var session := ReadGroup(groups.value[i]);
      if session == None {
        FailureSticks(groups.value, ReadOne, i + 1);
        return None;
      }
      list := list + [session.value];
    }
    assert groups.value[..|groups.value|] == groups.value;
    sessions := Some(list);
  }

  lemma {:induction false} FailureSticks<T, U>(xs: seq<T>, f: T -> Option<U>, n: nat)
    requires n <= |xs| && Collect(xs[..n], f) == None
    ensures Collect(xs, f) == None
    decreases |xs| - n
  {
    if n == |xs| {
      assert xs[..n] == xs;
    } else {
      assert xs[..n + 1][..n] == xs[..n];
      FailureSticks(xs, f, n + 1);
    }
  }

  // -------------------------------------------------------------- printing ---

  // A section of a session other than the device section: the length of the
  // rulers around its title, its title line and its lines, as printed.
  datatype SectionText = SectionText(stars: nat, title: string, lines: seq<string>)

  datatype DeviceText = DeviceText(adapter: string, channel: string, id: string, lun: string, disk: string,
                                   state: string)

  datatype HostText = HostText(stars: nat, number: string, state: string, devices: seq<DeviceText>)

  datatype SessionText = SessionText(currentPortal: string, persistentPortal: string, sections: seq<SectionText>,
                                     host: Option<HostText>)

  datatype TargetText = TargetText(iqn: string, kind: string, sessions: seq<SessionText>)

  function Stars(n: nat): string {
    seq(n, _ => '*')
  }

  function Ruler(n: nat): string {
    "\t\t" + Stars(n)
  }

  function PrintTargetLine(t: TargetText): string {
    "Target" + ":" + " " + t.iqn + " (" + t.kind + ")"
  }

  function PrintSection(x: SectionText): seq<string> {
    [Ruler(x.stars), x.title, Ruler(x.stars)] + x.lines
  }

  function PrintSections(xs: seq<SectionText>): seq<string> {
    if xs == [] then [] else PrintSection(xs[0]) + PrintSections(xs[1..])
  }

  function DeviceLine1(d: DeviceText): string {
    JoinWith(["\t\tscsi" + d.adapter, "Channel", d.channel, "Id", d.id, "Lun:", d.lun], ' ')
  }

  function DeviceLine2(d: DeviceText): string {
    "\t\t\t" + "Attached scsi disk " + d.disk + "\t\tState" + ":" + " " + d.state
  }

  // A device as printed, with what reading its two lines should give.
  datatype Pair = Pair(line1: string, line2: string, device: Device)

  function PairOf(d: DeviceText): Pair {
    Pair(DeviceLine1(d), DeviceLine2(d), Device(Some(d.channel), Some(d.id), Some(d.lun), d.disk, d.state))
  }

  function Pairs(ds: seq<DeviceText>): seq<Pair> {
    seq(|ds|, i requires 0 <= i < |ds| => PairOf(ds[i]))
  }

  function PrintPairs(ps: seq<Pair>): seq<string> {
    if ps == [] then [] else [ps[0].line1, ps[0].line2] + PrintPairs(ps[1..])
  }

  function PrintDevices(ds: seq<DeviceText>): seq<string> {
    PrintPairs(Pairs(ds))
  }

  function HostLine(h: HostText): string {
    "\t\t" + "Host Number" + ":" + " " + h.number + "\tState" + ":" + " " + h.state
  }

  function PrintHost(h: Option<HostText>): seq<string> {
    if h == None then []
    else [Ruler(h.value.stars), "\t\t" + "Attached SCSI devices" + [':'], Ruler(h.value.stars), HostLine(h.value)]
         + PrintDevices(h.value.devices)
  }

  function PortalLine(s: SessionText): string {
    "\t" + "Current Portal" + ":" + " " + s.currentPortal
  }

  function PrintBody(s: SessionText): seq<string> {
    ["\t" + "Persistent Portal" + ":" + " " + s.persistentPortal] + PrintSections(s.sections) + PrintHost(s.host)
  }

  // The lines of a session: its portal line and the rest.
  datatype Block = Block(head: string, body: seq<string>)

  function BlockOf(s: SessionText): Block {
    Block(PortalLine(s), PrintBody(s))
  }

  function Blocks(ss: seq<SessionText>): seq<Block> {
    seq(|ss|, i requires 0 <= i < |ss| => BlockOf(ss[i]))
  }

  function PrintBlocks(bs: seq<Block>): seq<string> {
    if bs == [] then [] else [bs[0].head] + bs[0].body + PrintBlocks(bs[1..])
  }

  // A target line and the blocks of its sessions.
  datatype Listing = Listing(line: string, blocks: seq<Block>)

  function ListingOf(t: TargetText): Listing {
    Listing(PrintTargetLine(t), Blocks(t.sessions))
  }

  function Listings(ts: seq<TargetText>): seq<Listing> {
    seq(|ts|, i requires 0 <= i < |ts| => ListingOf(ts[i]))
  }

  function PrintListings(ls: seq<Listing>): seq<string> {
    if ls == [] then [] else [ls[0].line] + PrintBlocks(ls[0].blocks) + PrintListings(ls[1..])
  }

  function PrintTargets(ts: seq<TargetText>): seq<string> {
    PrintListings(Listings(ts))
  }

  // What the format itself requires of the printed values.
  predicate Solid(s: string) {
    s != "" && forall c | c in s :: !IsSpace(c)
  }

  predicate Value(s: string) {
    s != "" && Trimmed(s)
  }

  predicate BodyLine(line: string) {
    !IsTargetLine(line) && !IsPortalLine(line)
  }

  predicate GoodSection(x: SectionText) {
    && x.stars > 0 && BodyLine(x.title)
    && OwnSection(SectionName(x.title))
    && forall line | line in x.lines :: BodyLine(line) && !IsRuler(Trim(line))
  }

  predicate GoodDevice(d: DeviceText) {
    Solid(d.adapter) && Solid(d.channel) && Solid(d.id) && Solid(d.lun) && Solid(d.disk) && Value(d.state)
  }

  predicate GoodHost(h: HostText) {
    h.stars > 0 && Solid(h.number) && Value(h.state) && forall d | d in h.devices :: GoodDevice(d)
  }

  predicate GoodSession(s: SessionText) {
    && Value(s.currentPortal) && Value(s.persistentPortal)
    && (forall x | x in s.sections :: GoodSection(x))
    && (s.host.Some? ==> GoodHost(s.host.value))
  }

  predicate GoodTarget(t: TargetText) {
    && Solid(t.iqn)
    && t.sessions != []
    && forall s | s in t.sessions :: GoodSession(s)
  }

  // ---------------------------------------------------- grouping round trip ---

  lemma {:induction false} GatherConcat(g: Grouping, a: seq<string>, b: seq<string>)
    ensures GatherAll(g, a + b) == GatherAll(GatherAll(g, a), b)
    decreases |b|
  {
    if b == [] {
      assert a + b == a;
    } else {
      var n := |b| - 1;
      assert (a + b)[..|a| + n] == a + b[..n];
      GatherConcat(g, a, b[..n]);
    }
  }

  lemma {:induction false} GatherBody(g: Grouping, lines: seq<string>)
    requires forall line | line in lines :: BodyLine(line)
    ensures GatherAll(g, lines) == g.(current := g.current + lines)
  {
    if lines == [] {
      assert g.current + lines == g.current;
    } else {
      var n := |lines| - 1;
      assert lines[n] in lines;
      GatherBody(g, lines[..n]);
      assert g.current + lines[..n] + [lines[n]] == g.current + lines;
    }
  }

  function Groups(line: string, bs: seq<Block>): seq<seq<string>> {
    seq(|bs|, i requires 0 <= i < |bs| => [line, bs[i].head] + bs[i].body)
  }

  function AllGroups(ls: seq<Listing>): seq<seq<string>> {
    if ls == [] then [] else Groups(ls[0].line, ls[0].blocks) + AllGroups(ls[1..])
  }

  predicate GoodBlock(b: Block) {
    IsPortalLine(b.head) && forall line | line in b.body :: BodyLine(line)
  }

  lemma GatherBlock(g: Grouping, line: string, b: Block)
    requires g.target == Some(line) && !g.orphaned && GoodBlock(b)
    ensures GatherAll(g, [b.head] + b.body) == g.(done := Flush(g), current := [line, b.head] + b.body)
  {
    GatherBody(Gather(g, b.head), b.body);
    GatherConcat(g, [b.head], b.body);
  }

  // Under one target, one group per session.
  lemma {:induction false} GatherBlocks(g: Grouping, line: string, bs: seq<Block>)
    requires g.target == Some(line) && !g.orphaned && forall b | b in bs :: GoodBlock(b)
    ensures var h := GatherAll(g, PrintBlocks(bs));
            && Flush(h) == Flush(g) + Groups(line, bs)
            && h.target == g.target && !h.orphaned
            && (bs != [] || g.current != [] ==> h.current != [])
    decreases |bs|
  {
    if bs == [] {
      assert Flush(g) + Groups(line, bs) == Flush(g);
    } else {
      var b, rest := bs[0], bs[1..];
      assert b in bs;
      GatherBlock(g, line, b);
      GatherConcat(g, [b.head] + b.body, PrintBlocks(rest));
      var h := g.(done := Flush(g), current := [line, b.head] + b.body);
      GatherBlocks(h, line, rest);
      assert Flush(g) + [[line, b.head] + b.body] + Groups(line, rest) == Flush(g) + Groups(line, bs);
    }
  }

  // A line that starts with a tab and whose text is known.
  lemma TabbedLine(tabs: string, text: string)
    requires AllSpace(tabs) && tabs != "" && Value(text)
    ensures !IsTargetLine(tabs + text) && Trim(tabs + text) == text
  {
    assert tabs[0] in tabs;
    assert tabs + text + "" == tabs + text;
    TrimDrops(tabs, text, "");
    assert (tabs + text)[0] != "Target:"[0];
  }

  lemma Keyed(tabs: string, name: string, value: string)
    requires AllSpace(tabs) && Value(name) && Value(value)
    ensures Trim(tabs + name + ":" + " " + value) == name + ":" + " " + value
    ensures tabs != "" ==> !IsTargetLine(tabs + name + ":" + " " + value)
  {
    var text := name + ":" + " " + value;
    assert tabs + name + ":" + " " + value == tabs + text;
    assert tabs + text + "" == tabs + text;
    assert text[0] == name[0] && text[|text| - 1] == value[|value| - 1];
    TrimDrops(tabs, text, "");
    if tabs != "" {
      TabbedLine(tabs, text);
    }
  }

  lemma KeyedParts(name: string, value: string)
    requires ':' !in name && Value(value)
    ensures BeforeFirst(name + ":" + " " + value, ':') == name
    ensures ValueOf(name + ":" + " " + value) == value
  {
    assert name + ":" + " " + value == name + [':'] + (" " + value);
    CutAtFirst(name, ':', " " + value);
    assert " " + value + "" == " " + value;
    TrimDrops(" ", value, "");
  }

  lemma PortalLineIsPortal(s: SessionText)
    requires Value(s.currentPortal)
    ensures IsPortalLine(PortalLine(s))
  {
    Keyed("\t", "Current Portal", s.currentPortal);
    assert "Current Portal" + ":" == "Current Portal:";
  }

  lemma RulerIsBody(n: nat)
    requires n > 0
    ensures BodyLine(Ruler(n)) && Trim(Ruler(n)) == Stars(n) && IsRuler(Stars(n))
  {
    TabbedLine("\t\t", Stars(n));
  }

  lemma DeviceLinesAreBody(d: DeviceText)
    requires GoodDevice(d)
    ensures BodyLine(DeviceLine1(d)) && IsDeviceLine(DeviceLine1(d))
    ensures BodyLine(DeviceLine2(d))
    ensures Trim(DeviceLine2(d)) == "Attached scsi disk " + d.disk + "\t\tState" + ":" + " " + d.state
  {
    var rest := JoinWith(["Channel", d.channel, "Id", d.id, "Lun:", d.lun], ' ');
    var text := "scsi" + d.adapter + " " + rest;
    assert ["\t\tscsi" + d.adapter, "Channel", d.channel, "Id", d.id, "Lun:", d.lun][1..]
        == ["Channel", d.channel, "Id", d.id, "Lun:", d.lun];
    assert DeviceLine1(d) == "\t\t" + text;
    JoinEndsWithLast(["Channel", d.channel, "Id", d.id, "Lun:"], d.lun, ' ');
    assert ["Channel", d.channel, "Id", d.id, "Lun:"] + [d.lun] == ["Channel", d.channel, "Id", d.id, "Lun:", d.lun];
    assert text[|text| - 1] == d.lun[|d.lun| - 1];
    TabbedLine("\t\t", text);
    var text2 := "Attached scsi disk " + d.disk + "\t\tState" + ":" + " " + d.state;
    assert DeviceLine2(d) == "\t\t\t" + text2;
    assert text2[|text2| - 1] == d.state[|d.state| - 1];
    TabbedLine("\t\t\t", text2);
  }

  lemma {:induction false} PairsAreBody(ps: seq<Pair>)
    requires forall p | p in ps :: BodyLine(p.line1) && BodyLine(p.line2)
    ensures forall line | line in PrintPairs(ps) :: BodyLine(line)
  {
    if ps != [] {
      assert ps[0] in ps;
      PairsAreBody(ps[1..]);
    }
  }

  lemma DevicesAreBody(ds: seq<DeviceText>)
    requires forall d | d in ds :: GoodDevice(d)
    ensures forall line | line in PrintDevices(ds) :: BodyLine(line)
  {
    forall p | p in Pairs(ds) ensures BodyLine(p.line1) && BodyLine(p.line2) {
      var i :| 0 <= i < |ds| && p == PairOf(ds[i]);
      DeviceLinesAreBody(ds[i]);
    }
    PairsAreBody(Pairs(ds));
  }

  lemma {:induction false} SectionsAreBody(xs: seq<SectionText>)
    requires forall x | x in xs :: GoodSection(x)
    ensures forall line | line in PrintSections(xs) :: BodyLine(line)
  {
    if xs != [] {
      assert xs[0] in xs;
      RulerIsBody(xs[0].stars);
      SectionsAreBody(xs[1..]);
    }
  }

  lemma DeviceTitleIsBody()
    ensures BodyLine("\t\t" + "Attached SCSI devices" + [':'])
  {
    Reassociate("\t\t", "Attached SCSI devices", [':']);
    TabbedLine("\t\t", "Attached SCSI devices" + [':']);
  }

  lemma HostLineIsBody(h: HostText)
    requires GoodHost(h)
    ensures BodyLine(HostLine(h))
  {
    HostLineText(h);
  }

  lemma FourAndMore(a: string, b: string, c: string, d: string, more: seq<string>)
    requires BodyLine(a) && BodyLine(b) && BodyLine(c) && BodyLine(d) && forall line | line in more :: BodyLine(line)
    ensures forall line | line in [a, b, c, d] + more :: BodyLine(line)
  {
  }

  lemma HostIsBody(h: HostText)
    requires GoodHost(h)
    ensures forall line | line in PrintHost(Some(h)) :: BodyLine(line)
  {
    RulerIsBody(h.stars);
    DeviceTitleIsBody();
    HostLineIsBody(h);
    DevicesAreBody(h.devices);
    FourAndMore(Ruler(h.stars), "\t\t" + "Attached SCSI devices" + [':'], Ruler(h.stars), HostLine(h),
                PrintDevices(h.devices));
  }

  function HostValue(h: HostText): string {
    h.number + "\tState" + ":" + " " + h.state
  }

  lemma HostLineText(h: HostText)
    requires Solid(h.number) && Value(h.state)
    ensures Value(HostValue(h))
    ensures Trim(HostLine(h)) == "Host Number" + ":" + " " + HostValue(h) && !IsTargetLine(HostLine(h))
  {
    var v := HostValue(h);
    assert h.number[0] in h.number;
    assert v[0] == h.number[0] && v[|v| - 1] == h.state[|h.state| - 1];
    Keyed("\t\t", "Host Number", v);
    assert HostLine(h) == "\t\t" + "Host Number" + ":" + " " + v;
  }

  lemma PersistentIsBody(s: SessionText)
    requires Value(s.persistentPortal)
    ensures BodyLine("\t" + "Persistent Portal" + ":" + " " + s.persistentPortal)
  {
    Keyed("\t", "Persistent Portal", s.persistentPortal);
  }

  lemma BlockIsGood(s: SessionText)
    requires GoodSession(s)
    ensures GoodBlock(BlockOf(s))
  {
    PortalLineIsPortal(s);
    PersistentIsBody(s);
    SectionsAreBody(s.sections);
    if s.host.Some? {
      HostIsBody(s.host.value);
    }
  }

  lemma TargetLineIsTarget(t: TargetText)
    ensures IsTargetLine(PrintTargetLine(t))
  {
    assert "Target" + ":" == "Target:";
  }

  predicate GoodListing(l: Listing) {
    IsTargetLine(l.line) && l.blocks != [] && forall b | b in l.blocks :: GoodBlock(b)
  }

  lemma GatherTarget(g: Grouping, l: Listing)
    requires !g.orphaned && GoodListing(l)
    ensures var h := GatherAll(g, [l.line] + PrintBlocks(l.blocks));
            Flush(h) == Flush(g) + Groups(l.line, l.blocks) && !h.orphaned && h.current != []
  {
    GatherBlocks(Gather(g, l.line), l.line, l.blocks);
    GatherConcat(g, [l.line], PrintBlocks(l.blocks));
  }

  // The grouping loop gives back one group per session, in order, each led by
  // its own target's line.
  lemma {:induction false} GatherTargets(g: Grouping, ls: seq<Listing>)
    requires !g.orphaned && forall l | l in ls :: GoodListing(l)
    ensures var h := GatherAll(g, PrintListings(ls));
            && Flush(h) == Flush(g) + AllGroups(ls)
            && !h.orphaned
            && (ls != [] || g.current != [] ==> h.current != [])
    decreases |ls|
  {
    if ls == [] {
      assert Flush(g) + AllGroups(ls) == Flush(g);
    } else {
      assert ls[0] in ls;
      var first := [ls[0].line] + PrintBlocks(ls[0].blocks);
      GatherTarget(g, ls[0]);
      GatherConcat(g, first, PrintListings(ls[1..]));
      GatherTargets(GatherAll(g, first), ls[1..]);
      Reassociate(Flush(g), Groups(ls[0].line, ls[0].blocks), AllGroups(ls[1..]));
    }
  }

  lemma ListingIsGood(t: TargetText)
    requires GoodTarget(t)
    ensures GoodListing(ListingOf(t))
  {
    TargetLineIsTarget(t);
    forall b | b in Blocks(t.sessions) ensures GoodBlock(b) {
      var i :| 0 <= i < |t.sessions| && b == BlockOf(t.sessions[i]);
      BlockIsGood(t.sessions[i]);
    }
  }

  // ----------------------------------------------------- session round trip ---

  lemma {:induction false} StripKeepsWords(s: string)
    requires forall c | c in s :: IsWordChar(c)
    ensures StripNonWord(s) == s
  {
    if s != "" {
      assert s[0] in s;
      StripKeepsWords(s[1..]);
    }
  }

  lemma {:induction false} StripConcat(a: string, b: string)
    ensures StripNonWord(a + b) == StripNonWord(a) + StripNonWord(b)
  {
    if a == "" {
      assert a + b == b;
    } else {
      assert (a + b)[1..] == a[1..] + b;
      StripConcat(a[1..], b);
      Reassociate(if IsWordChar(a[0]) then [a[0]] else "", StripNonWord(a[1..]), StripNonWord(b));
    }
  }

  // A key made of words separated by blanks.
  predicate Spells(name: string, key: string) {
    && |name| == |key|
    && forall i | 0 <= i < |name| ::
         key[i] == (if name[i] == ' ' then '_' else LowerChar(name[i])) && IsWordChar(key[i])
  }

  lemma KeySpelling(name: string, key: string)
    requires Spells(name, key) && Trimmed(name)
    ensures Lower(StripNonWord(Underscore(Trim(name)))) == key
    ensures StripNonWord(Underscore(Lower(Trim(name)))) == key
  {
    TrimIsIdentity(name);
    var u := Underscore(name);
    assert forall i | 0 <= i < |u| :: IsWordChar(u[i]);
    StripKeepsWords(u);
    assert Lower(u) == key;
    assert Underscore(Lower(name)) == key;
    StripKeepsWords(key);
  }

  lemma TargetKey()
    ensures Spells("Target", "target")
  {
  }

  lemma PortalKey()
    ensures Spells("Current Portal", "current_portal")
  {
  }

  lemma PersistentKey()
    ensures Spells("Persistent Portal", "persistent_portal")
  {
  }

  lemma HostKey()
    ensures Spells("Host Number", "host_number")
  {
  }

  lemma DevicesKey()
    ensures Spells("Attached SCSI devices", DEVICES)
  {
  }

  // A "name: value" line, as the group reader takes it apart.
  lemma KeyedLine(tabs: string, name: string, key: string, value: string)
    requires AllSpace(tabs) && Value(name) && ':' !in name && Value(value) && Spells(name, key)
    ensures var line := Trim(tabs + name + ":" + " " + value);
            && Lower(KeyOf(line)) == key && ValueOf(line) == value
            && (name[0] != '*' ==> !IsRuler(line))
  {
    Keyed(tabs, name, value);
    KeyedParts(name, value);
    KeySpelling(name, key);
    var line := Trim(tabs + name + ":" + " " + value);
    assert line[0] == name[0] && line[0] in line;
  }

  // A header line, read before the first section.
  lemma ReadHead(tabs: string, name: string, key: string, value: string, rest: seq<string>, s: Session)
    requires AllSpace(tabs) && Value(name) && ':' !in name && Value(value) && Spells(name, key) && name[0] != '*'
    requires Trimmed(key) && Trimmed(if key == "target" then Split(value, ' ')[0] else value)
    ensures ReadLines([tabs + name + ":" + " " + value] + rest, "", s)
         == ReadLines(rest, "", s[key := Line(if key == "target" then Split(value, ' ')[0] else value)])
  {
    var line := tabs + name + ":" + " " + value;
    KeyedLine(tabs, name, key, value);
    TrimIsIdentity(key);
    TrimIsIdentity(if key == "target" then Split(value, ' ')[0] else value);
    assert ([line] + rest)[1..] == rest;
  }

  // Sections cannot touch the header fields.
  predicate HeadOnly(s: Session) {
    forall k | k in s && s[k].Line? :: k in {"target", "current_portal", "persistent_portal"}
  }

  predicate SameHead(s: Session, t: Session) {
    && HeadOnly(t) && DEVICES !in t
    && forall k | k in {"target", "current_portal", "persistent_portal"} ::
         (k in s <==> k in t) && (k in s ==> s[k] == t[k])
  }

  predicate OwnSection(name: string) {
    name !in {"", DEVICES, "target", "current_portal", "persistent_portal"}
  }

  lemma PutKeepsHead(s: Session, name: string, key: string, e: Entry)
    requires OwnSection(name) && HeadOnly(s) && DEVICES !in s
    ensures Put(s, name, key, e).Some? && SameHead(s, Put(s, name, key, e).value)
  {
  }

  lemma SameHeadTransitive(s: Session, t: Session, u: Session)
    requires SameHead(s, t) && SameHead(t, u)
    ensures SameHead(s, u)
  {
  }

  lemma ReadSectionLine(line: string, rest: seq<string>, name: string, s: Session) returns (t: Session)
    requires OwnSection(name) && HeadOnly(s) && DEVICES !in s && !IsRuler(Trim(line))
    ensures ReadLines([line] + rest, name, s) == ReadLines(rest, name, t) && SameHead(s, t)
  {
    var key, value := KeyOf(Trim(line)), ValueOf(Trim(line));
    PutKeepsHead(s, name, EntryKey(name, key), Plain(value));
    t := Put(s, name, EntryKey(name, key), Plain(value)).value;
    assert ([line] + rest)[0] == line && ([line] + rest)[1..] == rest;
  }

  lemma {:induction false} ReadSectionLines(lines: seq<string>, rest: seq<string>, name: string, s: Session)
    returns (t: Session)
    requires OwnSection(name) && HeadOnly(s) && DEVICES !in s && forall line | line in lines :: !IsRuler(Trim(line))
    ensures ReadLines(lines + rest, name, s) == ReadLines(rest, name, t) && SameHead(s, t)
    decreases |lines|
  {
    if lines == [] {
      assert lines + rest == rest;
      t := s;
    } else {
      assert lines[0] in lines;
      assert lines + rest == [lines[0]] + (lines[1..] + rest);
      var u := ReadSectionLine(lines[0], lines[1..] + rest, name, s);
      t := ReadSectionLines(lines[1..], rest, name, u);
      SameHeadTransitive(s, u, t);
    }
  }

  lemma ReadRuler(n: nat, title: string, rest: seq<string>, name: string, s: Session)
    requires n > 0
    ensures ReadLines([Ruler(n), title, Ruler(n)] + rest, name, s) == ReadLines(rest, SectionName(title), s)
  {
    RulerIsBody(n);
    ReadTitle(Ruler(n), title, Ruler(n), rest, name, s);
  }

  lemma ReadTitle(ruler: string, title: string, after: string, rest: seq<string>, name: string, s: Session)
    requires IsRuler(Trim(ruler))
    ensures ReadLines([ruler, title, after] + rest, name, s) == ReadLines(rest, SectionName(title), s)
  {
    var lines := [ruler, title, after] + rest;
    assert lines[3..] == rest && lines[0] == ruler && lines[1] == title;
  }

  lemma {:induction false} ReadSections(xs: seq<SectionText>, rest: seq<string>, name: string, s: Session)
    returns (name': string, t: Session)
    requires HeadOnly(s) && DEVICES !in s && forall x | x in xs :: GoodSection(x)
    ensures ReadLines(PrintSections(xs) + rest, name, s) == ReadLines(rest, name', t) && SameHead(s, t)
    decreases |xs|
  {
    if xs == [] {
      assert PrintSections(xs) + rest == rest;
      name', t := name, s;
    } else {
      var x := xs[0];
      assert x in xs;
      var more := PrintSections(xs[1..]) + rest;
      assert PrintSections(xs) + rest == [Ruler(x.stars), x.title, Ruler(x.stars)] + (x.lines + more);
      ReadRuler(x.stars, x.title, x.lines + more, name, s);
      var u := ReadSectionLines(x.lines, more, SectionName(x.title), s);
      name', t := ReadSections(xs[1..], rest, SectionName(x.title), u);
    }
  }

  lemma SolidHasNoSpace(s: string)
    requires Solid(s)
    ensures ' ' !in s && '\t' !in s
  {
  }

  lemma ReadDeviceBack(d: DeviceText)
    requires GoodDevice(d)
    ensures ReadDevice(DeviceLine1(d), DeviceLine2(d)) == Some(PairOf(d).device)
  {
    SplitLine1(d);
    SplitLine2(d);
    DeviceLinesAreBody(d);
    var head := "Attached scsi disk " + d.disk;
    var tail := "\tState" + ":" + " " + d.state;
    SolidHasNoSpace(d.disk);
    assert Trim(DeviceLine2(d)) == head + ['\t'] + tail;
    CutAtFirst(head, '\t', tail);
    KeyedParts("\tState", d.state);
  }

  lemma SplitLine1(d: DeviceText)
    requires GoodDevice(d)
    ensures Split(DeviceLine1(d), ' ') == ["\t\tscsi" + d.adapter, "Channel", d.channel, "Id", d.id, "Lun:", d.lun]
  {
    var parts := ["\t\tscsi" + d.adapter, "Channel", d.channel, "Id", d.id, "Lun:", d.lun];
    SolidHasNoSpace(d.adapter);
    SolidHasNoSpace(d.channel);
    SolidHasNoSpace(d.id);
    SolidHasNoSpace(d.lun);
    SplitJoin(parts, ' ');
  }

  // The fourth of five blank-separated parts.
  lemma FourthPart(a: string, b: string, c: string, cell: string, rest: string)
    requires ' ' !in a && ' ' !in b && ' ' !in c && ' ' !in cell
    ensures var p := Split(a + [' '] + (b + [' '] + (c + [' '] + (cell + [' '] + rest))), ' ');
            |p| > 3 && p[3] == cell
  {
    SplitFirst(a, ' ', b + [' '] + (c + [' '] + (cell + [' '] + rest)));
    SplitFirst(b, ' ', c + [' '] + (cell + [' '] + rest));
    SplitFirst(c, ' ', cell + [' '] + rest);
    SplitFirst(cell, ' ', rest);
  }

  lemma Regroup(a: string, b: string, c: string, disk: string, gap: string, tail: string, state: string)
    ensures a + [' '] + b + [' '] + c + [' '] + disk + (gap + tail) + " " + state
         == a + [' '] + (b + [' '] + (c + [' '] + ((disk + gap + tail) + [' '] + state)))
  {
  }

  lemma Line2Text(d: DeviceText)
    ensures DeviceLine2(d) == "\t\t\tAttached" + [' '] + "scsi" + [' '] + "disk" + [' ']
                              + d.disk + ("\t" + ("\tState" + ":")) + " " + d.state
  {
    assert "\t\t\t" + "Attached scsi disk " == "\t\t\tAttached" + [' '] + "scsi" + [' '] + "disk" + [' '];
    assert "\t\tState" + ":" == "\t" + ("\tState" + ":");
    Reassociate("\t\t\t" + "Attached scsi disk " + d.disk, "\t\tState", ":");
  }

  lemma Reassociate<T>(a: seq<T>, b: seq<T>, c: seq<T>)
    ensures a + b + c == a + (b + c)
  {
  }

  lemma SplitLine2(d: DeviceText)
    requires GoodDevice(d)
    ensures var p := Split(DeviceLine2(d), ' '); |p| > 3 && BeforeFirst(p[3], '\t') == d.disk
  {
    var tail := "\tState" + ":";
    SolidHasNoSpace(d.disk);
    CutAtFirst(d.disk, '\t', tail);
    Line2Text(d);
    Regroup("\t\t\tAttached", "scsi", "disk", d.disk, "\t", tail, d.state);
    FourthPart("\t\t\tAttached", "scsi", "disk", d.disk + "\t" + tail, d.state);
  }

  predicate GoodPair(p: Pair) {
    IsDeviceLine(p.line1) && p.line2 != "" && ReadDevice(p.line1, p.line2) == Some(p.device)
  }

  function DevicesOf(ps: seq<Pair>): seq<Device> {
    seq(|ps|, i requires 0 <= i < |ps| => ps[i].device)
  }

  lemma FirstDevice(ps: seq<Pair>)
    requires ps != []
    ensures [ps[0].device] + DevicesOf(ps[1..]) == DevicesOf(ps)
  {
  }

  lemma TakeOne(list: Option<seq<Device>>, p: Pair, more: seq<string>)
    requires GoodPair(p)
    ensures TakeDevices(list, [p.line1, p.line2] + more)
         == TakeDevices(Some((if list.Some? then list.value else []) + [p.device]), more)
  {
    var lines := [p.line1, p.line2] + more;
    assert lines[0] == p.line1 && lines[1] == p.line2 && lines[2..] == more;
  }

  lemma {:induction false} TakePairs(sofar: seq<Device>, ps: seq<Pair>)
    requires forall p | p in ps :: GoodPair(p)
    ensures TakeDevices(Some(sofar), PrintPairs(ps)) == Devices(Some(sofar + DevicesOf(ps)), [])
    decreases |ps|
  {
    if ps == [] {
      assert sofar + DevicesOf(ps) == sofar;
    } else {
      assert ps[0] in ps;
      TakeOne(Some(sofar), ps[0], PrintPairs(ps[1..]));
      TakePairs(sofar + [ps[0].device], ps[1..]);
      FirstDevice(ps);
      Reassociate(sofar, [ps[0].device], DevicesOf(ps[1..]));
    }
  }

  lemma TakeAllPairs(ps: seq<Pair>)
    requires forall p | p in ps :: GoodPair(p)
    ensures TakeDevices(None, PrintPairs(ps)) == Devices(if ps == [] then None else Some(DevicesOf(ps)), [])
  {
    if ps != [] {
      assert ps[0] in ps;
      TakeOne(None, ps[0], PrintPairs(ps[1..]));
      TakePairs([] + [ps[0].device], ps[1..]);
      FirstDevice(ps);
      Reassociate([], [ps[0].device], DevicesOf(ps[1..]));
      assert [] + DevicesOf(ps) == DevicesOf(ps);
    }
  }

  lemma TakeDevicesBack(ds: seq<DeviceText>)
    requires forall d | d in ds :: GoodDevice(d)
    ensures TakeDevices(None, PrintDevices(ds)) == Devices(if ds == [] then None else Some(DevicesOf(Pairs(ds))), [])
  {
    forall p | p in Pairs(ds) ensures GoodPair(p) {
      var i :| 0 <= i < |ds| && p == PairOf(ds[i]);
      DeviceLinesAreBody(ds[i]);
      ReadDeviceBack(ds[i]);
    }
    TakeAllPairs(Pairs(ds));
  }

  function HostOf(h: HostText): Host {
    Host(h.number, h.state, if h.devices == [] then None else Some(DevicesOf(Pairs(h.devices))))
  }

  predicate HasHead(r: Session, iqn: string, current: string, persistent: string) {
    && "target" in r && r["target"] == Line(iqn)
    && "current_portal" in r && r["current_portal"] == Line(current)
    && "persistent_portal" in r && r["persistent_portal"] == Line(persistent)
  }

  // The session object carries the session's own target, portals and devices.
  predicate Describes(r: Session, t: TargetText, s: SessionText) {
    && HasHead(r, t.iqn, s.currentPortal, s.persistentPortal)
    && (if s.host == None then DEVICES !in r
        else DEVICES in r && r[DEVICES] == Section(map["host" := HostEntry(HostOf(s.host.value))]))
  }

  lemma ColonTitle(name: string)
    ensures Underscore(Lower(name + [':'])) == Underscore(Lower(name)) + [':']
    ensures StripNonWord([':']) == ""
  {
  }

  lemma TitledSection(tabs: string, name: string, key: string)
    requires AllSpace(tabs) && Value(name) && Spells(name, key)
    ensures SectionName(tabs + name + [':']) == key
  {
    assert tabs + (name + [':']) + "" == tabs + name + [':'];
    TrimDrops(tabs, name + [':'], "");
    KeySpelling(name, key);
    TrimIsIdentity(name);
    ColonTitle(name);
    StripConcat(Underscore(Lower(name)), [':']);
  }

  lemma DeviceSectionName()
    ensures SectionName("\t\t" + "Attached SCSI devices" + [':']) == DEVICES
  {
    DevicesKey();
    TitledSection("\t\t", "Attached SCSI devices", DEVICES);
  }

  lemma HostLineReads(h: HostText)
    requires GoodHost(h)
    ensures var line := Trim(HostLine(h));
            Lower(KeyOf(line)) == "host_number" && ValueOf(line) == HostValue(h) && !IsRuler(line)
  {
    HostLineText(h);
    HostKey();
    assert HostLine(h) == "\t\t" + "Host Number" + ":" + " " + HostValue(h);
    KeyedLine("\t\t", "Host Number", "host_number", HostValue(h));
  }

  lemma HostValueReads(h: HostText, devices: Option<seq<Device>>)
    requires GoodHost(h)
    ensures ReadHost(HostValue(h), devices) == HostEntry(Host(h.number, h.state, devices))
  {
    SolidHasNoSpace(h.number);
    var tail := "State" + ":" + " " + h.state;
    assert HostValue(h) == h.number + ['\t'] + tail;
    CutAtFirst(h.number, '\t', tail);
    KeyedParts("State", h.state);
  }

  lemma ReadHostLine(line: string, value: string, more: seq<string>, list: Option<seq<Device>>, s: Session)
    requires !IsRuler(Trim(line)) && Lower(KeyOf(Trim(line))) == "host_number" && ValueOf(Trim(line)) == value
    requires TakeDevices(None, more) == Devices(list, []) && DEVICES !in s
    ensures ReadLines([line] + more, DEVICES, s) == Some(s[DEVICES := Section(map["host" := ReadHost(value, list)])])
  {
    assert ([line] + more)[1..] == more;
  }

  lemma ReadHostBack(h: HostText, name: string, s: Session)
    requires GoodHost(h) && DEVICES !in s
    ensures ReadLines(PrintHost(Some(h)), name, s) == Some(s[DEVICES := Section(map["host" := HostEntry(HostOf(h))])])
  {
    var lines := [HostLine(h)] + PrintDevices(h.devices);
    assert PrintHost(Some(h)) == [Ruler(h.stars), "\t\t" + "Attached SCSI devices" + [':'], Ruler(h.stars)] + lines;
    ReadRuler(h.stars, "\t\t" + "Attached SCSI devices" + [':'], lines, name, s);
    DeviceSectionName();
    HostLineReads(h);
    TakeDevicesBack(h.devices);
    ReadHostLine(HostLine(h), HostValue(h), PrintDevices(h.devices), HostOf(h).devices, s);
    HostValueReads(h, HostOf(h).devices);
  }

  function Head(t: TargetText, s: SessionText): Session {
    map["target" := Line(t.iqn), "current_portal" := Line(s.currentPortal),
        "persistent_portal" := Line(s.persistentPortal)]
  }

  lemma ReadTargetLine(t: TargetText, rest: seq<string>)
    requires Solid(t.iqn)
    ensures ReadLines([PrintTargetLine(t)] + rest, "", map[]) == ReadLines(rest, "", map["target" := Line(t.iqn)])
  {
    var kind := t.iqn + " (" + t.kind + ")";
    assert PrintTargetLine(t) == "" + "Target" + ":" + " " + kind;
    assert t.iqn[0] in t.iqn && kind[|kind| - 1] == ')';
    SolidHasNoSpace(t.iqn);
    assert kind == t.iqn + [' '] + ("(" + t.kind + ")");
    SplitFirst(t.iqn, ' ', "(" + t.kind + ")");
    assert t.iqn[|t.iqn| - 1] in t.iqn;
    TargetKey();
    ReadHead("", "Target", "target", kind, rest, map[]);
  }

  lemma ReadPortals(s: SessionText, rest: seq<string>, r: Session)
    requires Value(s.currentPortal) && Value(s.persistentPortal)
    ensures ReadLines([PortalLine(s), "\t" + "Persistent Portal" + ":" + " " + s.persistentPortal] + rest, "", r)
         == ReadLines(rest, "",
                      r["current_portal" := Line(s.currentPortal)]["persistent_portal" := Line(s.persistentPortal)])
  {
    PortalKey();
    PersistentKey();
    var persistent := "\t" + "Persistent Portal" + ":" + " " + s.persistentPortal;
    assert [PortalLine(s), persistent] + rest == [PortalLine(s)] + ([persistent] + rest);
    ReadHead("\t", "Current Portal", "current_portal", s.currentPortal, [persistent] + rest, r);
    ReadHead("\t", "Persistent Portal", "persistent_portal", s.persistentPortal, rest,
             r["current_portal" := Line(s.currentPortal)]);
  }

  lemma HeadCarries(t: TargetText, s: SessionText, r: Session)
    requires SameHead(Head(t, s), r)
    ensures HasHead(r, t.iqn, s.currentPortal, s.persistentPortal) && DEVICES !in r
  {
  }

  lemma HeadIsHead(t: TargetText, s: SessionText)
    ensures HeadOnly(Head(t, s)) && DEVICES !in Head(t, s)
  {
  }

  lemma HeadKept(r: Session, iqn: string, current: string, persistent: string, f: Field)
    requires HasHead(r, iqn, current, persistent)
    ensures HasHead(r[DEVICES := f], iqn, current, persistent)
  {
  }

  lemma ReadBodyBack(t: TargetText, s: SessionText)
    requires GoodSession(s)
    ensures var r := ReadLines(PrintSections(s.sections) + PrintHost(s.host), "", Head(t, s));
            r.Some? && Describes(r.value, t, s)
  {
    HeadIsHead(t, s);
    var name, r := ReadSections(s.sections, PrintHost(s.host), "", Head(t, s));
    HeadCarries(t, s, r);
    if s.host.Some? {
      ReadHostBack(s.host.value, name, r);
      HeadKept(r, t.iqn, s.currentPortal, s.persistentPortal, Section(map["host" := HostEntry(HostOf(s.host.value))]));
    }
  }

  lemma GroupReadsBack(t: TargetText, s: SessionText)
    requires Solid(t.iqn) && GoodSession(s)
    ensures var b := BlockOf(s);
            var r := ReadLines([PrintTargetLine(t), b.head] + b.body, "", map[]);
            r.Some? && Describes(r.value, t, s)
  {
    var persistent := "\t" + "Persistent Portal" + ":" + " " + s.persistentPortal;
    var rest := PrintSections(s.sections) + PrintHost(s.host);
    var portals := [PortalLine(s), persistent] + rest;
    assert [PrintTargetLine(t), PortalLine(s)] + PrintBody(s) == [PrintTargetLine(t)] + portals;
    ReadTargetLine(t, portals);
    ReadPortals(s, rest, map["target" := Line(t.iqn)]);
    ReadBodyBack(t, s);
  }

  // ------------------------------------------------------------ the theorem ---

  // Every session with its target, in the order printed.
  function Flat(ts: seq<TargetText>): seq<(TargetText, SessionText)> {
    if ts == [] then []
    else seq(|ts[0].sessions|, i requires 0 <= i < |ts[0].sessions| => (ts[0], ts[0].sessions[i])) + Flat(ts[1..])
  }

  lemma {:induction false} AllGroupsFlat(ts: seq<TargetText>)
    requires forall t | t in ts :: GoodTarget(t)
    ensures var groups := AllGroups(Listings(ts));
            && |groups| == |Flat(ts)|
            && forall i | 0 <= i < |Flat(ts)| ::
                 && Solid(Flat(ts)[i].0.iqn) && GoodSession(Flat(ts)[i].1)
                 && groups[i] == [PrintTargetLine(Flat(ts)[i].0), BlockOf(Flat(ts)[i].1).head]
                                 + BlockOf(Flat(ts)[i].1).body
  {
    if ts != [] {
      assert ts[0] in ts;
      assert Listings(ts)[1..] == Listings(ts[1..]);
      AllGroupsFlat(ts[1..]);
    }
  }

  lemma {:induction false} CollectsAll<T, U>(xs: seq<T>, f: T -> Option<U>)
    requires forall i | 0 <= i < |xs| :: f(xs[i]).Some?
    ensures var r := Collect(xs, f);
            r.Some? && |r.value| == |xs| && forall i | 0 <= i < |xs| :: Some(r.value[i]) == f(xs[i])
  {
    if xs != [] {
      CollectsAll(xs[..|xs| - 1], f);
    }
  }

  lemma DetailsOfGroups(entries: seq<string>, groups: seq<seq<string>>)
    requires entries != []
    requires var g := GatherAll(NO_GROUPS, entries); !g.orphaned && g.current != [] && Flush(g) == [] + groups
    ensures Details(entries) == ReadGroups(groups)
  {
    assert [] + groups == groups;
  }

  lemma PrintedGroups(ts: seq<TargetText>)
    requires ts != [] && forall t | t in ts :: GoodTarget(t)
    ensures Details(PrintTargets(ts)) == ReadGroups(AllGroups(Listings(ts)))
  {
    forall l | l in Listings(ts) ensures GoodListing(l) {
      var i :| 0 <= i < |ts| && l == ListingOf(ts[i]);
      ListingIsGood(ts[i]);
    }
    GatherTargets(NO_GROUPS, Listings(ts));
    DetailsOfGroups(PrintTargets(ts), AllGroups(Listings(ts)));
  }

  lemma GroupsDescribe(ts: seq<TargetText>)
    requires forall t | t in ts :: GoodTarget(t)
    ensures var groups := AllGroups(Listings(ts));
            && |groups| == |Flat(ts)|
            && forall i | 0 <= i < |groups| ::
                 var r := ReadOne(groups[i]); r.Some? && Describes(r.value, Flat(ts)[i].0, Flat(ts)[i].1)
  {
    AllGroupsFlat(ts);
    forall i | 0 <= i < |Flat(ts)|
      ensures var r := ReadOne(AllGroups(Listings(ts))[i]);
              r.Some? && Describes(r.value, Flat(ts)[i].0, Flat(ts)[i].1)
    {
      GroupReadsBack(Flat(ts)[i].0, Flat(ts)[i].1);
    }
  }

  /**
   The session listing reads back: printing any non-empty list of targets, each
   with one or more sessions, and parsing the lines gives one object per
   session, in order, each with its own target, portals, host and devices.
   */
  lemma DetailsRoundTrip(ts: seq<TargetText>)
    requires ts != [] && forall t | t in ts :: GoodTarget(t)
    ensures var r := Details(PrintTargets(ts));
            r.Some? && |r.value| == |Flat(ts)|
            && forall i | 0 <= i < |Flat(ts)| :: Describes(r.value[i], Flat(ts)[i].0, Flat(ts)[i].1)
  {
    PrintedGroups(ts);
    GroupsDescribe(ts);
    CollectsAll(AllGroups(Listings(ts)), ReadOne);
  }

  // The output as printed: two lines of the tool's own, the targets, and white
  // space at the end.
  function Output(first: string, second: string, ts: seq<TargetText>, tail: string): string {
    JoinWith([first, second] + PrintTargets(ts), '\n') + tail
  }

  /**
   From the text: the whole output, on lines that hold no line break themselves
   and with a last line that does not end in white space, reads back the same.
   */
  lemma OutputRoundTrip(first: string, second: string, ts: seq<TargetText>, tail: string)
    requires ts != [] && (forall t | t in ts :: GoodTarget(t)) && AllSpace(tail)
    requires first != "" && !IsSpace(first[0]) && '\n' !in first && '\n' !in second
    requires var lines := PrintTargets(ts);
             && (forall line | line in lines :: '\n' !in line)
             && (lines != [] ==> var last := lines[|lines| - 1]; last != "" && !IsSpace(last[|last| - 1]))
    ensures var r := DetailsOfText(Output(first, second, ts, tail));
            r.Some? && |r.value| == |Flat(ts)|
            && forall i | 0 <= i < |Flat(ts)| :: Describes(r.value[i], Flat(ts)[i].0, Flat(ts)[i].1)
  {
    var lines := PrintTargets(ts);
    PrintedLines(ts);
    TextIsLines([first, second] + lines, tail);
    DetailsRoundTrip(ts);
    assert ([first, second] + lines)[2..] == lines;
  }

  lemma PrintedLines(ts: seq<TargetText>)
    requires ts != []
    ensures PrintTargets(ts) != []
  {
  }
}
