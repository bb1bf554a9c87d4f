/**
 The string operations the components use, as JavaScript defines them on ASCII
 text (white space also counts U+00A0 and U+FEFF; letters outside A-Z keep
 their case).
 */
module Text {
  import opened Wrappers

  predicate IsSpace(c: char) {
    c in {' ', '\t', '\n', '\r', '\U{000B}', '\U{000C}', '\U{00A0}', '\U{FEFF}'}
  }

  function TrimStart(s: string): (r: string)
    ensures r != "" ==> !IsSpace(r[0])
    ensures |r| <= |s|
  {
    if s != "" && IsSpace(s[0]) then TrimStart(s[1..]) else s
  }

  function TrimEnd(s: string): (r: string)
    ensures r != "" ==> !IsSpace(r[|r| - 1])
    ensures r <= s
  {
    if s != "" && IsSpace(s[|s| - 1]) then TrimEnd(s[..|s| - 1]) else s
  }

  function Trim(s: string): (r: string)
    ensures r != "" ==> !IsSpace(r[0]) && !IsSpace(r[|r| - 1])
  {
    TrimEnd(TrimStart(s))
  }

  function LowerChar(c: char): char {
    if 'A' <= c <= 'Z' then c - 'A' + 'a' else c
  }

  function Lower(s: string): (r: string)
    ensures |r| == |s| && forall i | 0 <= i < |s| :: r[i] == LowerChar(s[i])
  {
    seq(|s|, i requires 0 <= i < |s| => LowerChar(s[i]))
  }

  predicate StartsWith(s: string, prefix: string) {
    prefix <= s
  }

  predicate EndsWith(s: string, suffix: string) {
    |suffix| <= |s| && s[|s| - |suffix|..] == suffix
  }

  predicate OccursAt(s: string, part: string, i: int) {
    0 <= i <= |s| - |part| && s[i..i + |part|] == part
  }

  // String.prototype.includes
  predicate Includes(s: string, part: string) {
    exists i | 0 <= i <= |s| - |part| :: OccursAt(s, part, i)
  }

  // ------------------------------------------------- cutting at a character ---

  function BeforeFirst(s: string, c: char): string {
    if s == "" || s[0] == c then "" else [s[0]] + BeforeFirst(s[1..], c)
  }

  // s.split(c).slice(1).join(c): what follows the first c, if there is one.
  function AfterFirst(s: string, c: char): string {
    if s == "" then "" else if s[0] == c then s[1..] else AfterFirst(s[1..], c)
  }

  function Split(s: string, c: char): (r: seq<string>)
    ensures |r| >= 1
  {
    if s == "" then [""]
    else
      var rest := Split(s[1..], c);
      if s[0] == c then [""] + rest else [[s[0]] + rest[0]] + rest[1..]
  }

  function JoinWith(parts: seq<string>, c: char): string {
    if parts == [] then "" else if |parts| == 1 then parts[0] else parts[0] + [c] + JoinWith(parts[1..], c)
  }

  lemma {:induction false} CutAtFirst(a: string, c: char, b: string)
    requires c !in a
    ensures BeforeFirst(a + [c] + b, c) == a && AfterFirst(a + [c] + b, c) == b
  {
    var s := a + [c] + b;
    if a == "" {
      assert s[1..] == b;
    } else {
      assert s[0] == a[0] && a[0] in a;
      assert s[1..] == a[1..] + [c] + b;
      CutAtFirst(a[1..], c, b);
    }
  }

  lemma {:induction false} SplitFirst(a: string, c: char, b: string)
    requires c !in a
    ensures Split(a + [c] + b, c) == [a] + Split(b, c)
  {
    var s := a + [c] + b;
    if a == "" {
      assert s[1..] == b;
    } else {
      assert s[0] == a[0] && a[0] in a;
      assert s[1..] == a[1..] + [c] + b;
      SplitFirst(a[1..], c, b);
      assert [a[0]] + a[1..] == a;
    }
  }

  lemma {:induction false} SplitNone(a: string, c: char)
    requires c !in a
    ensures Split(a, c) == [a]
  {
    if a != "" {
      assert a[0] in a;
      SplitNone(a[1..], c);
      assert [a[0]] + a[1..] == a;
    }
  }

  // Splitting undoes joining.
  lemma {:induction false} SplitJoin(parts: seq<string>, c: char)
    requires parts != [] && forall p | p in parts :: c !in p
    ensures Split(JoinWith(parts, c), c) == parts
  {
    assert parts[0] in parts;
    if |parts| == 1 {
      SplitNone(parts[0], c);
    } else {
      SplitFirst(parts[0], c, JoinWith(parts[1..], c));
      SplitJoin(parts[1..], c);
      assert [parts[0]] + parts[1..] == parts;
    }
  }

  // ------------------------------------------------------------- white space ---

  predicate AllSpace(s: string) {
    forall c | c in s :: IsSpace(c)
  }

  // Nothing to trim.
  predicate Trimmed(s: string) {
    s != "" ==> !IsSpace(s[0]) && !IsSpace(s[|s| - 1])
  }

  lemma {:induction false} TrimStartDrops(ws: string, s: string)
    requires AllSpace(ws) && (s != "" ==> !IsSpace(s[0]))
    ensures TrimStart(ws + s) == s
  {
    if ws == "" {
      assert ws + s == s;
    } else {
      assert ws[0] in ws;
      assert (ws + s)[1..] == ws[1..] + s;
      TrimStartDrops(ws[1..], s);
    }
  }

  lemma {:induction false} TrimEndDrops(s: string, ws: string)
    requires AllSpace(ws) && (s != "" ==> !IsSpace(s[|s| - 1]))
    ensures TrimEnd(s + ws) == s
  {
    if ws == "" {
      assert s + ws == s;
    } else {
      var n := |ws| - 1;
      assert ws[n] in ws;
      assert (s + ws)[..|s| + n] == s + ws[..n];
      TrimEndDrops(s, ws[..n]);
    }
  }

  lemma TrimDrops(ws: string, s: string, ws': string)
    requires AllSpace(ws) && AllSpace(ws') && Trimmed(s)
    ensures Trim(ws + s + ws') == s
  {
    if s == "" {
      assert ws + s + ws' == (ws + ws') + "";
      TrimStartDrops(ws + ws', "");
      TrimEndDrops("", "");
    } else {
      assert ws + s + ws' == ws + (s + ws');
      TrimStartDrops(ws, s + ws');
      TrimEndDrops(s, ws');
    }
  }

  lemma TrimIsIdentity(s: string)
    requires Trimmed(s)
    ensures Trim(s) == s
  {
    assert "" + s + "" == s;
    TrimDrops("", s, "");
  }

  lemma {:induction false} TrimStartLeaves(s: string)
    ensures TrimStart(s) == "" ==> AllSpace(s)
  {
    if s != "" && IsSpace(s[0]) {
      TrimStartLeaves(s[1..]);
      assert s == [s[0]] + s[1..];
    }
  }

  lemma {:induction false} TrimEndLeaves(s: string)
    ensures TrimEnd(s) == "" ==> AllSpace(s)
  {
    if s != "" && IsSpace(s[|s| - 1]) {
      TrimEndLeaves(s[..|s| - 1]);
      assert s == s[..|s| - 1] + [s[|s| - 1]];
    }
  }

  lemma TrimmedAway(s: string)
    ensures Trim(s) == "" <==> AllSpace(s)
  {
    TrimStartLeaves(s);
    TrimEndLeaves(TrimStart(s));
    if AllSpace(s) {
      assert s + "" + "" == s;
      TrimDrops(s, "", "");
    } else {
      assert TrimStart(s)[0] in TrimStart(s);
    }
  }

  // ------------------------------------------------------------ text and lines ---

  lemma {:induction false} JoinEndsWithLast(parts: seq<string>, last: string, c: char)
    requires last != "" && parts != []
    ensures var j := JoinWith(parts + [last], c); |j| > |last| && j[|j| - 1] == last[|last| - 1]
    decreases |parts|
  {
    assert (parts + [last])[1..] == parts[1..] + [last];
    if |parts| > 1 {
      JoinEndsWithLast(parts[1..], last, c);
    } else {
      assert parts[1..] + [last] == [last];
    }
  }

  lemma JoinStartsWithFirst(first: string, more: seq<string>, c: char)
    requires first != ""
    ensures JoinWith([first] + more, c) != "" && JoinWith([first] + more, c)[0] == first[0]
  {
    assert more != [] ==> ([first] + more)[1..] == more;
  }

  // Lines joined into a text with white space at its end are its lines.
  lemma TextIsLines(lines: seq<string>, tail: string)
    requires lines != [] && (forall p | p in lines :: '\n' !in p) && AllSpace(tail)
    requires lines[0] != "" && !IsSpace(lines[0][0])
    requires var last := lines[|lines| - 1]; last != "" && !IsSpace(last[|last| - 1])
    ensures JoinWith(lines, '\n') + tail != ""
    ensures Split(Trim(JoinWith(lines, '\n') + tail), '\n') == lines
  {
    var text, n := JoinWith(lines, '\n'), |lines| - 1;
    assert [lines[0]] + lines[1..] == lines == lines[..n] + [lines[n]];
    JoinStartsWithFirst(lines[0], lines[1..], '\n');
    if n > 0 {
      JoinEndsWithLast(lines[..n], lines[n], '\n');
    }
    assert "" + text + tail == text + tail;
    TrimDrops("", text, tail);
    SplitJoin(lines, '\n');
  }

  // ---------------------------------------------------------------- numbers ---

  predicate IsDigit(c: char) {
    '0' <= c <= '9'
  }

  predicate AllDigits(s: string) {
    forall c | c in s :: IsDigit(c)
  }

  // A number as it is printed.
  function Digits(n: nat): (s: string)
    ensures s != "" && AllDigits(s)
  {
    if n < 10 then [n as char + '0'] else Digits(n / 10) + [(n % 10) as char + '0']
  }

  function ValueOf(s: string): nat
    requires AllDigits(s)
  {
    if s == "" then 0
    else
      assert s[|s| - 1] in s;
      10 * ValueOf(s[..|s| - 1]) + (s[|s| - 1] - '0') as nat
  }

  lemma {:induction false} ValueOfDigits(n: nat)
    ensures ValueOf(Digits(n)) == n
  {
    if n >= 10 {
      ValueOfDigits(n / 10);
      assert Digits(n)[..|Digits(n)| - 1] == Digits(n / 10);
    } else {
      assert Digits(n)[..0] == "";
    }
  }

  function DigitPrefix(s: string): (r: string)
    ensures AllDigits(r)
  {
    if s == "" || !IsDigit(s[0]) then "" else [s[0]] + DigitPrefix(s[1..])
  }

  lemma {:induction false} DigitPrefixOfDigits(s: string)
    requires AllDigits(s)
    ensures DigitPrefix(s) == s
  {
    if s != "" {
      assert s[0] in s;
      DigitPrefixOfDigits(s[1..]);
      assert s == [s[0]] + s[1..];
    }
  }

  function HexDigit(c: char): Option<nat> {
    if IsDigit(c) then Some((c - '0') as nat)
    else if 'a' <= c <= 'f' then Some(10 + (c - 'a') as nat)
    else if 'A' <= c <= 'F' then Some(10 + (c - 'A') as nat)
    else None
  }

  // The number the leading hexadecimal digits go on to make of `sofar`.
  function HexPrefix(s: string, sofar: Option<nat>): Option<nat>
    decreases |s|
  {
    if s == "" || HexDigit(s[0]) == None then sofar
    else HexPrefix(s[1..], Some(16 * (if sofar == None then 0 else sofar.value) + HexDigit(s[0]).value))
  }

  function Magnitude(u: string): Option<nat> {
    if StartsWith(u, "0x") || StartsWith(u, "0X") then HexPrefix(u[2..], None)
    else if DigitPrefix(u) == "" then None
    else Some(ValueOf(DigitPrefix(u)))
  }

  // parseInt without a radix; None is NaN.
  function ParseInt(s: string): Option<int> {
    var t := TrimStart(s);
    var m := Magnitude(if StartsWith(t, "-") || StartsWith(t, "+") then t[1..] else t);
    if m == None then None else if StartsWith(t, "-") then Some(0 - m.value) else Some(m.value)
  }

  lemma MagnitudeOfDigits(s: string)
    requires s != "" && AllDigits(s)
    ensures Magnitude(s) == Some(ValueOf(s))
  {
    DigitPrefixOfDigits(s);
    if |s| > 1 {
      assert s[1] in s;
    }
  }

  lemma ParseIntOfDigits(n: nat)
    ensures ParseInt(Digits(n)) == Some(n)
  {
    var s := Digits(n);
    assert s[0] in s;
    assert TrimStart(s) == s;
    MagnitudeOfDigits(s);
    ValueOfDigits(n);
  }

  // String(n); NaN for None.
  function IntText(n: Option<int>): string {
    if n == None then "NaN" else if n.value < 0 then "-" + Digits(-n.value) else Digits(n.value)
  }
}
