/**
 The short listings of iscsiadm, nodes and sessions, and how they are read; the
 search for the session of a target at a portal.
 */
module IscsiListings {
  import opened Wrappers
  import opened Text
  import opened IscsiHost
  import opened Portals

  // How a command ended: its exit code (none after a signal or when it never
  // ran) and what it wrote.
  datatype Ending = Ending(code: Option<nat>, stdout: string, stderr: string)

  // "No records found"
  const NO_OBJECTS := 21

  // Garbled: a line with too few fields, on which the code throws.
  datatype Listing<T> = Listed(items: seq<T>) | CommandFailed | Garbled

  predicate HasListing(e: Ending) {
    e.code == Some(0) || e.code == Some(NO_OBJECTS)
  }

  // The lines of an output; an empty output has none.
  function Lines(stdout: string): seq<string> {
    if stdout == "" then [] else Split(Trim(stdout), '\n')
  }

  // ------------------------------------------------------------------- nodes ---

  // The portal field keeps its group tag; a line without a second field is
  // passed over.
  function NodesOf(entries: seq<string>): seq<Record> {
    if entries == [] then []
    else
      var n := |entries| - 1;
      var fields := Split(entries[n], ' ');
      NodesOf(entries[..n]) + if |fields| < 2 then [] else [Record(fields[1], fields[0])]
  }

  function Nodes(e: Ending): Listing<Record> {
    if HasListing(e) then Listed(NodesOf(Lines(e.stdout))) else CommandFailed
  }

  method ListNodeDBEntries(result: Ending) returns (r: Listing<Record>)
    ensures r == Nodes(result)
  {
    if !HasListing(result) {
      return CommandFailed;
    }
    if result.stdout == "" {
      return Listed([]);
    }
    var entries := Split(Trim(result.stdout), '\n');
    var records := [];
    for i := 0 to |entries|
      invariant records == NodesOf(entries[..i])
    {
      assert entries[..i + 1][..i] == entries[..i];
      if entries[i] == "" {
        continue;
      }
      var fields := Split(entries[i], ' ');
      if |fields| < 2 {
        continue;
      }
      records := records + [Record(fields[1], fields[0])];
    }
    assert entries[..|entries|] == entries;
    r := Listed(records);
  }

  /**
   The exit codes 0 and 21 leave a listing, any other ending is a failure; and an
   output of white space is the empty listing, also when the tool found nothing and
   says so by its code.
   */
  lemma ByExitCode(e: Ending)
    ensures Nodes(e) == CommandFailed <==> e.code != Some(0) && e.code != Some(21)
    ensures Sessions(e) == CommandFailed <==> e.code != Some(0) && e.code != Some(21)
    ensures (e.code == Some(0) || e.code == Some(21)) && AllSpace(e.stdout) ==>
              Nodes(e) == Listed([]) && Sessions(e) == Listed([])
  {
    if AllSpace(e.stdout) {
      BlankHasNoLine(e.stdout);
      NoNodes();
      NoSessions();
    }
  }

  // Whether a record exists, from the command that shows it.
  method NodeDBEntryExists(result: Ending) returns (r: Option<bool>)
    ensures r == Some(true) <==> result.code == Some(0) && !AllSpace(result.stdout)
    ensures r == Some(false) <==> (if result.code == Some(0) then AllSpace(result.stdout)
                                   else result.code == Some(21)
                                        || Includes(Lower(result.stderr), "no records found"))
  {
    TrimmedAway(result.stdout);
    if result.code == Some(0) {
      return Some(|Trim(result.stdout)| > 0);
    }
    if result.code == Some(NO_OBJECTS) {
      return Some(false);
    }
    r := if Includes(Lower(result.stderr), "no records found") then Some(false) else None;
  }

  // ---------------------------------------------------------------- sessions ---

  // What Number makes of a text: of digits their value, of blank text 0. What it
  // makes of other texts (signs, fractions, exponents, prefixes, NaN) is not
  // worked out.
  datatype Id = Id(n: nat) | Unread(text: string)

  function IdOf(text: string): Id {
    var t := Trim(text);
    if AllDigits(t) then Id(ValueOf(t)) else Unread(t)
  }

  datatype Session = Session(protocol: string, id: Id, portal: string, tag: Option<string>, iqn: string)

  function WithoutFirst(s: string, c: char): string {
    BeforeFirst(s, c) + AfterFirst(s, c)
  }

  function SessionOf(entry: string): Option<Session> {
    var fields := Split(entry, ' ');
    if |fields| < 4 then None
    else
      var at := Split(fields[2], ',');
      Some(Session(BeforeFirst(entry, ':'), IdOf(WithoutFirst(WithoutFirst(fields[1], '['), ']')), at[0],
                   if |at| > 1 then Some(at[1]) else None, Trim(fields[3])))
  }

  // None: the code throws.
  function SessionsOf(entries: seq<string>): Option<seq<Session>> {
    if entries == [] then Some([])
    else
      var n := |entries| - 1;
      match SessionsOf(entries[..n])
      case None => None
      case Some(before) =>
        if entries[n] == "" then Some(before)
        else match SessionOf(entries[n])
          case None => None
          case Some(s) => Some(before + [s])
  }

  function Sessions(e: Ending): Listing<Session> {
    if !HasListing(e) then CommandFailed
    else match SessionsOf(Lines(e.stdout))
      case None => Garbled
      case Some(ss) => Listed(ss)
  }

  method GetSessions(result: Ending) returns (r: Listing<Session>)
    ensures r == Sessions(result)
  {
    if !HasListing(result) {
      return CommandFailed;
    }
    if result.stdout == "" {
      return Listed([]);
    }
    var entries := Split(Trim(result.stdout), '\n');
    var sessions := [];
    for i := 0 to |entries|
      invariant SessionsOf(entries[..i]) == Some(sessions)
    {
      assert entries[..i + 1][..i] == entries[..i];
      if entries[i] == "" {
        continue;
      }
      var s := SessionOf(entries[i]);
      if s == None {
        ThrownOnce(entries, i + 1);
        return Garbled;
      }
      sessions := sessions + [s.value];
    }
    assert entries[..|entries|] == entries;
    r := Listed(sessions);
  }

  lemma {:induction false} ThrownOnce(entries: seq<string>, i: nat)
    requires i <= |entries| && SessionsOf(entries[..i]) == None
    ensures SessionsOf(entries) == None
    decreases |entries| - i
  {
    if i < |entries| {
      assert entries[..i + 1][..i] == entries[..i];
      ThrownOnce(entries, i + 1);
    } else {
      assert entries[..i] == entries;
    }
  }

  // ----------------------------------------------------- reading what is printed ---

  predicate Word(s: string) {
    s != "" && forall c | c in s :: !IsSpace(c)
  }

  // A line goes on behind the last field read, or does not.
  predicate GoodRest(rest: Option<string>) {
    rest.Some? ==> rest.value != "" && '\n' !in rest.value && !IsSpace(rest.value[|rest.value| - 1])
  }

  function Field(last: string, rest: Option<string>): string {
    if rest == None then last else last + [' '] + rest.value
  }

  // portal,tag iqn
  function NodeLine(r: Record, rest: Option<string>): string {
    r.portal + [' '] + Field(r.iqn, rest)
  }

  // protocol: [id] portal,tag iqn (note)
  function SessionLine(s: Session, rest: Option<string>): string {
    (s.protocol + [':']) + [' '] + (("[" + IdText(s.id) + "]") + [' '] + (Address(s) + [' '] + Field(s.iqn, rest)))
  }

  function IdText(id: Id): string {
    if id.Id? then Digits(id.n) else id.text
  }

  function Address(s: Session): string {
    if s.tag == None then s.portal else s.portal + [','] + s.tag.value
  }

  predicate GoodSession(s: Session) {
    && Word(s.protocol) && ':' !in s.protocol
    && s.id.Id?
    && Word(s.portal) && ',' !in s.portal
    && (s.tag.Some? ==> Word(s.tag.value) && ',' !in s.tag.value)
    && Word(s.iqn)
  }

  lemma FieldSplits(last: string, rest: Option<string>)
    requires Word(last)
    ensures Split(Field(last, rest), ' ')[0] == last
  {
    if rest == None {
      SplitNone(last, ' ');
    } else {
      SplitFirst(last, ' ', rest.value);
    }
  }

  lemma NodeReads(r: Record, rest: Option<string>)
    requires Word(r.portal) && Word(r.iqn)
    ensures var fields := Split(NodeLine(r, rest), ' ');
            |fields| >= 2 && fields[0] == r.portal && fields[1] == r.iqn
  {
    SplitFirst(r.portal, ' ', Field(r.iqn, rest));
    FieldSplits(r.iqn, rest);
  }

  function NodeLines(rs: seq<Record>, rests: seq<Option<string>>): (lines: seq<string>)
    requires |rs| == |rests|
    ensures |lines| == |rs|
  {
    seq(|rs|, i requires 0 <= i < |rs| => NodeLine(rs[i], rests[i]))
  }

  lemma {:induction false} NodeLinesRead(rs: seq<Record>, rests: seq<Option<string>>)
    requires |rs| == |rests| && forall r | r in rs :: Word(r.portal) && Word(r.iqn)
    ensures NodesOf(NodeLines(rs, rests)) == rs
  {
    if rs != [] {
      var n := |rs| - 1;
      assert NodeLines(rs, rests)[..n] == NodeLines(rs[..n], rests[..n]);
      NodeLinesRead(rs[..n], rests[..n]);
      assert rs[n] in rs;
      NodeReads(rs[n], rests[n]);
      assert rs == rs[..n] + [rs[n]];
    }
  }

  lemma FieldEnds(front: string, last: string, rest: Option<string>)
    requires Word(last) && GoodRest(rest) && '\n' !in front
    ensures var line := front + Field(last, rest);
            |line| > |front| && !IsSpace(line[|line| - 1]) && '\n' !in line
  {
    var line := front + Field(last, rest);
    assert last[|last| - 1] in last;
    assert IsSpace('\n') && '\n' !in last;
    if rest == None {
      assert line[|line| - 1] == last[|last| - 1];
    } else {
      assert line[|line| - 1] == rest.value[|rest.value| - 1];
    }
  }

  lemma NodeLineIsLine(r: Record, rest: Option<string>)
    requires Word(r.portal) && Word(r.iqn) && GoodRest(rest)
    ensures var line := NodeLine(r, rest);
            line != "" && !IsSpace(line[0]) && !IsSpace(line[|line| - 1]) && '\n' !in line
  {
    assert r.portal[0] in r.portal && IsSpace('\n');
    FieldEnds(r.portal + [' '], r.iqn, rest);
    assert NodeLine(r, rest)[0] == r.portal[0];
  }

  /** A printed listing of node records reads back as those records, in order. */
  lemma NodesRoundTrip(e: Ending, rs: seq<Record>, rests: seq<Option<string>>, tail: string)
    requires |rs| == |rests| && (forall r | r in rs :: Word(r.portal) && Word(r.iqn))
    requires (forall rest | rest in rests :: GoodRest(rest)) && AllSpace(tail)
    requires HasListing(e) && e.stdout == JoinWith(NodeLines(rs, rests), '\n') + tail
    ensures Nodes(e) == Listed(rs)
  {
    var lines := NodeLines(rs, rests);
    if rs == [] {
      assert e.stdout == tail;
      BlankHasNoLine(tail);
      NoNodes();
    } else {
      forall i | 0 <= i < |rs|
        ensures lines[i] != "" && !IsSpace(lines[i][0]) && !IsSpace(lines[i][|lines[i]| - 1]) && '\n' !in lines[i]
      {
        assert rs[i] in rs && rests[i] in rests;
        NodeLineIsLine(rs[i], rests[i]);
      }
      TextIsLines(lines, tail);
      NodeLinesRead(rs, rests);
    }
  }

  lemma BlankHasNoLine(tail: string)
    requires AllSpace(tail)
    ensures Lines(tail) == [] || Lines(tail) == [""]
  {
    TrimmedAway(tail);
  }

  lemma NoNodes()
    ensures NodesOf([]) == NodesOf([""]) == []
  {
    assert [""][..0] == [];
  }

  function SessionLines(ss: seq<Session>, rests: seq<Option<string>>): (lines: seq<string>)
    requires |ss| == |rests|
    ensures |lines| == |ss|
  {
    seq(|ss|, i requires 0 <= i < |ss| => SessionLine(ss[i], rests[i]))
  }

  lemma SessionFields(s: Session, rest: Option<string>)
    requires GoodSession(s)
    ensures var fields := Split(SessionLine(s, rest), ' ');
            && |fields| >= 4 && fields[1] == "[" + IdText(s.id) + "]"
            && fields[2] == Address(s) && fields[3] == s.iqn
  {
    var at := Address(s);
    var line := Field(s.iqn, rest);
    SplitFirst(s.protocol + [':'], ' ', ("[" + IdText(s.id) + "]") + [' '] + (at + [' '] + line));
    SplitFirst("[" + IdText(s.id) + "]", ' ', at + [' '] + line);
    SplitFirst(at, ' ', line);
    FieldSplits(s.iqn, rest);
  }

  lemma BracketsGo(id: string)
    requires '[' !in id && ']' !in id
    ensures WithoutFirst(WithoutFirst("[" + id + "]", '['), ']') == id
  {
    assert "[" + id + "]" == "" + ['['] + (id + "]");
    CutAtFirst("", '[', id + "]");
    assert WithoutFirst("[" + id + "]", '[') == id + [']'] + "";
    CutAtFirst(id, ']', "");
  }

  lemma IdReads(n: nat)
    ensures IdOf(Digits(n)) == Id(n)
  {
    DigitsArePlain(n);
    PlainEnds(Digits(n));
    TrimIsIdentity(Digits(n));
    ValueOfDigits(n);
  }

  lemma TagSplits(s: Session)
    requires GoodSession(s)
    ensures Split(Address(s), ',') == if s.tag == None then [s.portal] else [s.portal, s.tag.value]
  {
    if s.tag == None {
      SplitNone(s.portal, ',');
    } else {
      SplitFirst(s.portal, ',', s.tag.value);
      SplitNone(s.tag.value, ',');
    }
  }

  lemma ProtocolReads(s: Session, rest: Option<string>)
    requires GoodSession(s)
    ensures BeforeFirst(SessionLine(s, rest), ':') == s.protocol
  {
    var after := [' '] + (("[" + IdText(s.id) + "]") + [' '] + (Address(s) + [' '] + Field(s.iqn, rest)));
    assert SessionLine(s, rest) == s.protocol + [':'] + after;
    CutAtFirst(s.protocol, ':', after);
  }

  lemma SessionReads(s: Session, rest: Option<string>)
    requires GoodSession(s)
    ensures SessionOf(SessionLine(s, rest)) == Some(s)
  {
    SessionFields(s, rest);
    ProtocolReads(s, rest);
    DigitsArePlain(s.id.n);
    BracketsGo(IdText(s.id));
    IdReads(s.id.n);
    TagSplits(s);
  }

  lemma SessionLineIsLine(s: Session, rest: Option<string>)
    requires GoodSession(s) && GoodRest(rest)
    ensures var line := SessionLine(s, rest);
            line != "" && !IsSpace(line[0]) && !IsSpace(line[|line| - 1]) && '\n' !in line
  {
    assert s.protocol[0] in s.protocol && IsSpace('\n');
    var front := (s.protocol + [':']) + [' '] + (("[" + IdText(s.id) + "]") + [' '] + (Address(s) + [' ']));
    FieldEnds(front, s.iqn, rest);
    assert SessionLine(s, rest) == front + Field(s.iqn, rest);
  }

  predicate ReadsAs(line: string, s: Session) {
    line != "" && SessionOf(line) == Some(s)
  }

  lemma {:induction false} LinesRead(lines: seq<string>, ss: seq<Session>)
    requires |lines| == |ss| && forall i | 0 <= i < |ss| :: ReadsAs(lines[i], ss[i])
    ensures SessionsOf(lines) == Some(ss)
  {
    if ss != [] {
      var n := |ss| - 1;
      LinesRead(lines[..n], ss[..n]);
      assert lines == lines[..n] + [lines[n]] && ss == ss[..n] + [ss[n]];
    }
  }

  /** A printed listing of sessions reads back as those sessions, in order. */
  lemma SessionsRoundTrip(e: Ending, ss: seq<Session>, rests: seq<Option<string>>, tail: string)
    requires |ss| == |rests| && (forall s | s in ss :: GoodSession(s))
    requires (forall rest | rest in rests :: GoodRest(rest)) && AllSpace(tail)
    requires HasListing(e) && e.stdout == JoinWith(SessionLines(ss, rests), '\n') + tail
    ensures Sessions(e) == Listed(ss)
  {
    var lines := SessionLines(ss, rests);
    if ss == [] {
      assert e.stdout == tail;
      BlankHasNoLine(tail);
      NoSessions();
    } else {
      forall i | 0 <= i < |ss|
        ensures lines[i] != "" && !IsSpace(lines[i][0]) && !IsSpace(lines[i][|lines[i]| - 1]) && '\n' !in lines[i]
        ensures ReadsAs(lines[i], ss[i])
      {
        assert ss[i] in ss && rests[i] in rests;
        SessionReads(ss[i], rests[i]);
        SessionLineIsLine(ss[i], rests[i]);
      }
      TextIsLines(lines, tail);
      LinesRead(lines, ss);
    }
  }

  lemma NoSessions()
    ensures SessionsOf([]) == SessionsOf([""]) == Some([])
  {
    assert [""][..0] == [];
  }

  // ---------------------------------------------------- when reading throws ---

  predicate TooShort(entry: string) {
    entry != "" && |Split(entry, ' ')| < 4
  }

  lemma {:induction false} ThrowsOn(entries: seq<string>)
    ensures SessionsOf(entries) == None <==> exists entry | entry in entries :: TooShort(entry)
  {
    if entries != [] {
      var n := |entries| - 1;
      assert entries == entries[..n] + [entries[n]];
      ThrowsOn(entries[..n]);
      assert TooShort(entries[n]) <==> entries[n] != "" && SessionOf(entries[n]) == None;
      if TooShort(entries[n]) {
        assert entries[n] in entries;
      }
      forall entry | entry in entries ensures entry in entries[..n] || entry == entries[n] {
      }
    }
  }

  /** One line with fewer than four fields, and the whole listing is lost. */
  lemma GarbledExactly(e: Ending)
    ensures Sessions(e) == Garbled <==> HasListing(e) && exists entry | entry in Lines(e.stdout) :: TooShort(entry)
  {
    ThrowsOn(Lines(e.stdout));
  }

  // Such as one that ends before its target.
  lemma ThreeWordsAreLost(a: string, b: string, c: string)
    requires Word(a) && Word(b) && Word(c)
    ensures Sessions(Ending(Some(0), a + [' '] + (b + [' '] + c), "")) == Garbled
  {
    var line := a + [' '] + (b + [' '] + c);
    SplitFirst(a, ' ', b + [' '] + c);
    SplitFirst(b, ' ', c);
    SplitNone(c, ' ');
    assert TooShort(line);
    assert line[0] == a[0] && line[|line| - 1] == c[|c| - 1];
    assert a[0] in a && c[|c| - 1] in c;
    TrimIsIdentity(line);
    assert IsSpace('\n') && '\n' !in line;
    SplitNone(line, '\n');
    assert line in Lines(line);
    GarbledExactly(Ending(Some(0), line, ""));
  }

  lemma LineWithoutTargetIsLost()
    ensures Sessions(Ending(Some(0), "tcp: [1] nas:3260,1", "")) == Garbled
  {
    assert "tcp: [1] nas:3260,1" == "tcp:" + [' '] + ("[1]" + [' '] + "nas:3260,1");
    ThreeWordsAreLost("tcp:", "[1]", "nas:3260,1");
  }

  // ------------------------------------------------------ one target's session ---

  datatype Search = Found(session: Session) | NotFound | Unanswered

  predicate Wanted(s: Session, target: string, portal: string, resolved: string) {
    s.iqn == target && SessionAt(portal, resolved, s.portal)
  }

  /** The first listed session of the target at the portal. */
  method GetSession(result: Ending, target: string, portal: string, resolved: string) returns (r: Search)
    ensures r == Unanswered <==> !Sessions(result).Listed?
    ensures Sessions(result).Listed? ==>
              var ss := Sessions(result).items;
              && (r == NotFound <==> forall s | s in ss :: !(s.iqn == target && SessionAt(portal, resolved, s.portal)))
              && (r.Found? ==> exists i | 0 <= i < |ss| ::
                    && r.session == ss[i] && ss[i].iqn == target && SessionAt(portal, resolved, ss[i].portal)
                    && forall j | 0 <= j < i :: !Wanted(ss[j], target, portal, resolved))
  {
    var listing := GetSessions(result);
    if !listing.Listed? {
      return Unanswered;
    }
    var sessions := listing.items;
    for i := 0 to |sessions|
      invariant forall j | 0 <= j < i :: !Wanted(sessions[j], target, portal, resolved)
    {
      if Wanted(sessions[i], target, portal, resolved) {
        return Found(sessions[i]);
      }
    }
    r := NotFound;
  }
}
