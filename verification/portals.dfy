/**
 Portals as `host:port` text, and the test by which a listed session counts as
 being at the portal asked for. Host.sessionAt stands for this test there.
 */
module Portals {
  import opened Wrappers
  import opened Text

  // -1 when the character does not occur.
  function IndexOf(s: string, c: char): (i: int)
    ensures -1 <= i < |s|
  {
    if s == "" then -1
    else if s[0] == c then 0
    else
      var i := IndexOf(s[1..], c);
      if i == -1 then -1 else i + 1
  }

  function LastIndexOf(s: string, c: char): (i: int)
    ensures -1 <= i < |s|
  {
    if s == "" then -1 else if s[|s| - 1] == c then |s| - 1 else LastIndexOf(s[..|s| - 1], c)
  }

  lemma {:induction false} IndexOfFirst(a: string, c: char, b: string)
    requires c !in a
    ensures IndexOf(a + [c] + b, c) == |a|
  {
    if a != "" {
      assert a[0] in a;
      assert (a + [c] + b)[1..] == a[1..] + [c] + b;
      IndexOfFirst(a[1..], c, b);
    }
  }

  lemma {:induction false} IndexOfNone(s: string, c: char)
    requires c !in s
    ensures IndexOf(s, c) == -1
  {
    if s != "" {
      assert s[0] in s;
      IndexOfNone(s[1..], c);
    }
  }

  lemma {:induction false} LastIndexOfLast(a: string, c: char, b: string)
    requires c !in b
    ensures LastIndexOf(a + [c] + b, c) == |a|
  {
    if b != "" {
      var n := |b| - 1;
      assert b[n] in b;
      assert (a + [c] + b)[..|a| + 1 + n] == a + [c] + b[..n];
      LastIndexOfLast(a, c, b[..n]);
    }
  }

  lemma {:induction false} LastIndexOfNone(s: string, c: char)
    requires c !in s
    ensures LastIndexOf(s, c) == -1
  {
    if s != "" {
      assert s[|s| - 1] in s;
      LastIndexOfNone(s[..|s| - 1], c);
    }
  }

  // A port that is no number is None.
  datatype Portal = Portal(host: string, port: Option<int>)

  const DEFAULT_PORT := 3260

  // Whatever follows the last colon, or the closing bracket and a character.
  function Parts(t: string): (string, string) {
    if StartsWith(t, "[") then
      var close := IndexOf(t, ']');
      (t[..close + 1], if close + 2 <= |t| then t[close + 2..] else "")
    else
      var colon := LastIndexOf(t, ':');
      if colon != -1 then (t[..colon], t[colon + 1..]) else (t, "")
  }

  function Parsed(portal: string): Portal {
    var p := Parts(Trim(portal));
    Portal(p.0, if p.1 == "" then Some(DEFAULT_PORT) else ParseInt(p.1))
  }

  method ParsePortal(portal: string) returns (host: string, port: Option<int>)
    ensures Portal(host, port) == Parsed(portal)
  {
    var t := Trim(portal);
    var text := "";
    if StartsWith(t, "[") {
      var close := IndexOf(t, ']');
      host := t[..close + 1];
      if close + 2 <= |t| {
        text := t[close + 2..];
      }
    } else {
      var lastIndex := LastIndexOf(t, ':');
      if lastIndex != -1 {
        host := t[..lastIndex];
        text := t[lastIndex + 1..];
      } else {
        host := t;
      }
    }
    port := if text == "" then Some(DEFAULT_PORT) else ParseInt(text);
  }

  // Host names and IPv4 addresses.
  predicate PlainPart(s: string) {
    s != "" && forall c | c in s :: !IsSpace(c) && c !in {':', '[', ']'}
  }

  // IPv6 addresses, without the brackets.
  predicate Address6(s: string) {
    s != "" && forall c | c in s :: !IsSpace(c) && c !in {'[', ']'}
  }

  lemma PlainEnds(s: string)
    requires PlainPart(s)
    ensures ':' !in s && Trimmed(s) && s[0] != '[' && !IsSpace(s[0]) && !IsSpace(s[|s| - 1])
  {
    assert s[0] in s && s[|s| - 1] in s;
  }

  lemma DigitsArePlain(n: nat)
    ensures PlainPart(Digits(n))
  {
    assert forall c | IsDigit(c) :: !IsSpace(c) && c !in {':', '[', ']'};
  }

  lemma ParseText(host: string, port: string)
    requires PlainPart(host) && PlainPart(port)
    ensures Parsed(host + [':'] + port) == Portal(host, ParseInt(port))
    ensures Parsed(host) == Portal(host, Some(DEFAULT_PORT))
  {
    var t := host + [':'] + port;
    PlainEnds(host);
    PlainEnds(port);
    TrimIsIdentity(t);
    TrimIsIdentity(host);
    LastIndexOfLast(host, ':', port);
    LastIndexOfNone(host, ':');
    assert t[0] == host[0];
    assert t[..|host|] == host && t[|host| + 1..] == port;
  }

  /** Reading back a printed portal. */
  lemma ParsePlain(host: string, port: nat)
    requires PlainPart(host)
    ensures Parsed(host + [':'] + Digits(port)) == Portal(host, Some(port))
    ensures Parsed(host) == Portal(host, Some(3260))
  {
    DigitsArePlain(port);
    ParseText(host, Digits(port));
    ParseIntOfDigits(port);
  }

  lemma ParseClosed(front: string, port: string)
    requires front != "" && front[0] == '[' && ']' !in front && PlainPart(port)
    ensures Parsed(front + [']'] + [':'] + port) == Portal(front + [']'], ParseInt(port))
  {
    var host := front + [']'];
    var t := host + [':'] + port;
    PlainEnds(port);
    TrimIsIdentity(t);
    Regrouped(front, port);
    IndexOfFirst(front, ']', [':'] + port);
    assert t[..|host|] == host && t[|host| + 1..] == port;
  }

  lemma Regrouped(front: string, port: string)
    ensures front + [']'] + [':'] + port == front + [']'] + ([':'] + port)
  {
  }

  lemma ParseBracketedText(address: string, port: string)
    requires Address6(address) && PlainPart(port)
    ensures Parsed(Bracketed(address) + [':'] + port) == Portal(Bracketed(address), ParseInt(port))
  {
    ParseClosed("[" + address, port);
    assert Bracketed(address) == "[" + address + [']'];
  }

  lemma ParseBracketed(address: string, port: nat)
    requires Address6(address)
    ensures Parsed(Bracketed(address) + [':'] + Digits(port)) == Portal(Bracketed(address), Some(port))
    ensures Parsed(Bracketed(address)) == Portal(Bracketed(address), Some(3260))
  {
    DigitsArePlain(port);
    ParseBracketedText(address, Digits(port));
    ParseIntOfDigits(port);
    ParseBracketedAlone(address);
  }

  lemma ParseBracketedAlone(address: string)
    requires Address6(address)
    ensures Parsed(Bracketed(address)) == Portal(Bracketed(address), Some(3260))
  {
    var t := Bracketed(address);
    assert t == "[" + address + [']'] + "" && t[|t| - 1] == ']';
    IndexOfFirst("[" + address, ']', "");
    TrimIsIdentity(t);
    assert t[..|t|] == t;
  }

  // Without its closing bracket, a portal has no host, and all that follows the
  // opening one is the port.
  lemma ParseUnclosed(rest: string)
    requires rest != "" && ']' !in rest && !IsSpace(rest[|rest| - 1])
    ensures Parsed("[" + rest) == Portal("", ParseInt(rest))
  {
    var t := "[" + rest;
    TrimIsIdentity(t);
    IndexOfNone(t, ']');
    assert t[..0] == "" && t[1..] == rest;
  }

  function Bracketed(host: string): string {
    "[" + host + "]"
  }

  // `resolved`: the address the host name was looked up as, or the placeholder.
  predicate SessionAt(portal: string, resolved: string, listed: string) {
    var p := Parsed(portal);
    var port := IntText(p.port);
    || listed == portal
    || listed == p.host + [':'] + port
    || listed == resolved + [':'] + port
    || listed == Bracketed(p.host) + [':'] + port
    || listed == Bracketed(resolved) + [':'] + port
  }

  // Equal "host:port" texts have equal parts.
  lemma SameParts(a: string, p: string, b: string, q: string)
    requires ':' !in p && ':' !in q
    ensures a + [':'] + p == b + [':'] + q <==> a == b && p == q
  {
    var s, t := a + [':'] + p, b + [':'] + q;
    LastIndexOfLast(a, ':', p);
    LastIndexOfLast(b, ':', q);
    assert a == s[..|a|] && p == s[|a| + 1..] && b == t[..|b|] && q == t[|b| + 1..];
  }

  lemma NoColon(n: Option<int>)
    ensures ':' !in IntText(n)
  {
    if n.Some? {
      DigitsArePlain(if n.value < 0 then -n.value else n.value);
    }
  }

  // The hosts a session at the portal may be listed under, when the portal's own
  // reads `host`.
  predicate ListedAs(host: string, resolved: string, listedHost: string) {
    || listedHost == host || listedHost == resolved
    || listedHost == Bracketed(host) || listedHost == Bracketed(resolved)
  }

  // Names, IPv4 addresses and bracketed IPv6 ones.
  ghost predicate PortalHost(host: string) {
    PlainPart(host) || exists address :: Address6(address) && host == Bracketed(address)
  }

  /**
   Asked for host and port, exactly two kinds of sessions are at it: one listed
   under the same text, and those listed at the number the port reads as, under
   the host or the address it resolves to, bracketed or not. The host of an IPv6
   portal is the address with its brackets.
   */
  lemma SessionAtText(host: string, port: string, resolved: string, listedHost: string, listedPort: string)
    requires PortalHost(host) && PlainPart(port) && ':' !in listedPort
    ensures SessionAt(host + [':'] + port, resolved, listedHost + [':'] + listedPort)
       <==> (listedHost == host && listedPort == port)
            || (listedPort == IntText(ParseInt(port)) && ListedAs(host, resolved, listedHost))
  {
    if PlainPart(host) {
      ParseText(host, port);
    } else {
      var address :| Address6(address) && host == Bracketed(address);
      ParseBracketedText(address, port);
    }
    var number := IntText(ParseInt(port));
    NoColon(ParseInt(port));
    PlainEnds(port);
    SameParts(listedHost, listedPort, host, port);
    SameParts(listedHost, listedPort, host, number);
    SameParts(listedHost, listedPort, resolved, number);
    SameParts(listedHost, listedPort, Bracketed(host), number);
    SameParts(listedHost, listedPort, Bracketed(resolved), number);
  }

  /** With a printed port number, exactly the sessions at that number. */
  lemma SessionAtExactly(host: string, port: nat, resolved: string, listedHost: string, listedPort: string)
    requires PortalHost(host) && ':' !in listedPort
    ensures SessionAt(host + [':'] + Digits(port), resolved, listedHost + [':'] + listedPort)
       <==> listedPort == Digits(port) && ListedAs(host, resolved, listedHost)
  {
    DigitsArePlain(port);
    ParseIntOfDigits(port);
    SessionAtText(host, Digits(port), resolved, listedHost, listedPort);
  }
}
