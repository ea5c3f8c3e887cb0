/**
 * The streaming FortiClient importer (properties/nm-crosswire-import-fortinet.c): the callbacks
 * that GMarkup drives, and how their result becomes connection data.
 */
module FortinetImport {
  import opened Options
  import opened Text

  datatype Event = StartElement(name: string) | Characters(text: string) | EndElement(name: string)

  datatype Field = NoField | Name | Description | Server | Username | Sso

  function FieldFor(name: string): Field {
    if name == "name" then Name
    else if name == "description" then Description
    else if name == "server" then Server
    else if name == "username" then Username
    else if name == "sso_enabled" then Sso
    else NoField
  }

  /** What the importer has captured. */
  datatype Captured = Captured(
    name: Option<string>, description: Option<string>, server: Option<string>, username: Option<string>, sso: bool)

  datatype Parse = Parse(
    inSslvpn: bool, inConnection: bool, done: bool, reading: Field, text: string, got: Captured)

  const NOTHING := Captured(None, None, None, None, false)
  const INITIAL := Parse(false, false, false, NoField, "", NOTHING)

  // ----- Text values -----

  /** g_ascii_isspace. */
  predicate IsSpace(c: char) {
    c == ' ' || c == '\t' || c == '\n' || c == '\U{c}' || c == '\r'
  }

  function StripLeft(s: string): string {
    if s != "" && IsSpace(s[0]) then StripLeft(s[1..]) else s
  }

  function StripRight(s: string): string {
    if s != "" && IsSpace(s[|s| - 1]) then StripRight(s[..|s| - 1]) else s
  }

  function Strip(s: string): string {
    StripRight(StripLeft(s))
  }

  function LowerChar(c: char): char {
    if 'A' <= c <= 'Z' then c - 'A' + 'a' else c
  }

  function Lower(s: string): string {
    if s == "" then "" else [LowerChar(s[0])] + Lower(s[1..])
  }

  predicate IsTrue(val: string) {
    val == "1" || Lower(val) == "true"
  }

  // ----- The callbacks -----

  function Capture(c: Captured, f: Field, val: string): Captured {
    match f
    case Name => c.(name := Some(val))
    case Description => c.(description := Some(val))
    case Server => c.(server := Some(val))
    case Username => c.(username := Some(val))
    case Sso => c.(sso := IsTrue(val))
    case NoField => c
  }

  function CommitLeaf(p: Parse): Parse {
    p.(got := Capture(p.got, p.reading, Strip(p.text)), reading := NoField)
  }

  function OnStart(p: Parse, name: string): Parse {
    if name == "sslvpn" then p.(inSslvpn := true)
    else if p.inSslvpn && !p.done && name == "connection" then p.(inConnection := true)
    else if p.inConnection && FieldFor(name) != NoField then p.(reading := FieldFor(name), text := "")
    else p
  }

  function OnText(p: Parse, text: string): Parse {
    if p.reading != NoField then p.(text := p.text + text) else p
  }

  predicate HasServer(c: Captured) {
    c.server.Some? && c.server.value != ""
  }

  function OnEnd(p: Parse, name: string): Parse {
    var q := if p.reading != NoField then CommitLeaf(p) else p;
    if q.inConnection && name == "connection" then q.(inConnection := false, done := q.done || HasServer(q.got))
    else if name == "sslvpn" then q.(inSslvpn := false)
    else q
  }

  function On(p: Parse, e: Event): Parse {
    match e
    case StartElement(name) => OnStart(p, name)
    case Characters(text) => OnText(p, text)
    case EndElement(name) => OnEnd(p, name)
  }

  function Run(p: Parse, events: seq<Event>): Parse
    decreases |events|
  {
    if events == [] then p else Run(On(p, events[0]), events[1..])
  }

  // ----- The connection data -----

  /** The last position of `c`, or -1. */
  function LastIndexOf(s: string, c: char): (k: int)
    ensures -1 <= k < |s|
    ensures k >= 0 ==> s[k] == c
    ensures forall i :: k < i < |s| ==> s[i] != c
  {
    if s == "" then -1
    else if s[|s| - 1] == c then |s| - 1
    else LastIndexOf(s[..|s| - 1], c)
  }

  datatype Endpoint = Endpoint(gateway: string, port: Option<string>)

  function ApplyServer(server: string): Endpoint {
    var colon := LastIndexOf(server, ':');
    if colon >= 0 && colon + 1 < |server| && AllDigits(server[colon + 1..])
    then Endpoint(server[..colon], Some(server[colon + 1..]))
    else Endpoint(server, None)
  }

  datatype Imported = Imported(endpoint: Endpoint, authType: string, user: Option<string>, id: Option<string>)

  function NonEmptyText(v: Option<string>): Option<string> {
    if v.Some? && v.value != "" then v else None
  }

  /** The connection that the captured values describe, if there is a server. */
  function ImportOf(c: Captured): Option<Imported> {
    if !HasServer(c) then None
    else
      Some(Imported(
        ApplyServer(c.server.value),
        if c.sso then "saml" else "password",
        if c.sso then None else NonEmptyText(c.username),
        if NonEmptyText(c.name).Some? then c.name else NonEmptyText(c.description)))
  }

  /** The parser's user data, updated in place by the callbacks. */
  class FParse {
    var inSslvpn: bool
    var inConnection: bool
    var done: bool
    var reading: Field
    var text: string
    var name: Option<string>
    var description: Option<string>
    var server: Option<string>
    var username: Option<string>
    var sso: bool

    ghost function View(): Parse
      reads this
    {
      Parse(inSslvpn, inConnection, done, reading, text, Captured(name, description, server, username, sso))
    }

    constructor ()
      ensures View() == INITIAL
    {
      inSslvpn, inConnection, done, reading, text := false, false, false, NoField, "";
      name, description, server, username, sso := None, None, None, None, false;
    }

    method Start(element: string)
      modifies this
      ensures View() == OnStart(old(View()), element)
    {
      if element == "sslvpn" {
        inSslvpn := true;
      } else if inSslvpn && !done && element == "connection" {
        inConnection := true;
      } else if inConnection {
        var f := FieldFor(element);
        if f != NoField {
          reading := f;
          text := "";
        }
      }
    }

    method TextCallback(chunk: string)
      modifies this
      ensures View() == OnText(old(View()), chunk)
    {
      if reading != NoField {
        text := text + chunk;
      }
    }

    method Commit()
      modifies this
      ensures View() == CommitLeaf(old(View()))
    {
      var val := Strip(text);
      match reading {
        case Name => name := Some(val);
        case Description => description := Some(val);
        case Server => server := Some(val);
        case Username => username := Some(val);
        case Sso => sso := IsTrue(val);
        case NoField =>
      }
      reading := NoField;
    }

    method End(element: string)
      modifies this
      ensures View() == OnEnd(old(View()), element)
    {
      if reading != NoField {
        Commit();
      }
      if inConnection && element == "connection" {
        inConnection := false;
        if server.Some? && server.value != "" {
          done := true;
        }
      } else if element == "sslvpn" {
        inSslvpn := false;
      }
    }
  }

  lemma {:induction false} RunLast(p: Parse, events: seq<Event>, e: Event)
    ensures Run(p, events + [e]) == On(Run(p, events), e)
    decreases |events|
  {
    if events == [] {
      assert Run(p, [e]) == Run(On(p, e), []);
    } else {
      RunLast(On(p, events[0]), events[1..], e);
      assert (events + [e])[1..] == events[1..] + [e];
    }
  }

  /** Drive the callbacks over a document's events and build the connection. */
  method FortinetParse(events: seq<Event>) returns (imported: Option<Imported>)
    ensures imported == ImportOf(Run(INITIAL, events).got)
  {
    var p := new FParse();
    for i := 0 to |events|
      invariant p.View() == Run(INITIAL, events[..i])
    {
      RunLast(INITIAL, events[..i], events[i]);
      assert events[..i + 1] == events[..i] + [events[i]];
      match events[i] {
        case StartElement(name) => p.Start(name);
        case Characters(text) => p.TextCallback(text);
        case EndElement(name) => p.End(name);
      }
    }
    assert events[..|events|] == events;
    imported := ImportOf(Captured(p.name, p.description, p.server, p.username, p.sso));
  }

  // ----- What holds for every event sequence -----

  predicate Inv(p: Parse) {
    && (p.reading != NoField ==> p.inConnection)
    && (p.done ==> !p.inConnection && HasServer(p.got))
  }

  lemma OnKeepsInv(p: Parse, e: Event)
    requires Inv(p)
    ensures Inv(On(p, e))
    ensures p.done ==> On(p, e).done && On(p, e).got == p.got
  {
  }

  /**
   * However malformed the event sequence, a leaf is read only inside a connection, and once a
   * connection has been chosen no later event changes anything captured.
   */
  lemma {:induction false} InvForEveryRun(p: Parse, events: seq<Event>)
    requires Inv(p)
    ensures Inv(Run(p, events))
    ensures p.done ==> Run(p, events).done && Run(p, events).got == p.got
    decreases |events|
  {
    if events == [] {
    } else {
      OnKeepsInv(p, events[0]);
      InvForEveryRun(On(p, events[0]), events[1..]);
    }
  }

  lemma {:induction false} RunConcat(p: Parse, a: seq<Event>, b: seq<Event>)
    ensures Run(p, a + b) == Run(Run(p, a), b)
    decreases |a|
  {
    if a == [] {
      assert a + b == b;
    } else {
      RunConcat(On(p, a[0]), a[1..], b);
      assert (a + b)[1..] == a[1..] + b;
    }
  }

  /** How the lexer cuts character data into chunks makes no difference. */
  lemma ChunkingIsInvisible(before: seq<Event>, a: string, b: string, after: seq<Event>)
    ensures Run(INITIAL, before + ([Characters(a), Characters(b)] + after))
      == Run(INITIAL, before + ([Characters(a + b)] + after))
  {
    var p := Run(INITIAL, before);
    var two, one := [Characters(a), Characters(b)] + after, [Characters(a + b)] + after;
    RunConcat(INITIAL, before, two);
    RunConcat(INITIAL, before, one);
    assert two[1..] == [Characters(b)] + after && two[1..][1..] == after && one[1..] == after;
    assert p.text + a + b == p.text + (a + b);
    assert Run(p, two) == Run(On(On(p, Characters(a)), Characters(b)), after);
  }

  lemma LastIndexIs(s: string, c: char, k: nat)
    requires k < |s| && s[k] == c && forall i :: k < i < |s| ==> s[i] != c
    ensures LastIndexOf(s, c) == k
  {
  }

  lemma LastColon(server: string, host: string, port: string)
    requires AllDigits(port) && server == host + [':'] + port
    ensures LastIndexOf(server, ':') == |host|
    ensures server[..|host|] == host && server[|host| + 1..] == port
  {
    assert server[|host| + 1..] == port;
    forall i | |host| < i < |server|
      ensures server[i] != ':'
    {
      assert server[i] == port[i - |host| - 1];
    }
    LastIndexIs(server, ':', |host|);
  }

  /** A port is split off exactly when the server reads host, colon, at least one digit. */
  lemma ServerSplitsAtPort(server: string, host: string, port: string)
    ensures ApplyServer(server) == Endpoint(host, Some(port)) <==>
      server == host + [':'] + port && port != "" && AllDigits(port)
  {
    if server == host + [':'] + port && AllDigits(port) {
      LastColon(server, host, port);
    } else if ApplyServer(server).port.Some? {
      var colon := LastIndexOf(server, ':');
      assert server == server[..colon] + [':'] + server[colon + 1..];
    }
  }

  /** A server without a port at its end is the gateway as it stands. */
  lemma ServerWithoutPort(server: string)
    ensures ApplyServer(server).port.None? <==>
      !exists host, port :: server == host + ":" + port && port != "" && AllDigits(port)
    ensures ApplyServer(server).port.None? ==> ApplyServer(server).gateway == server
  {
    if host, port :| server == host + ":" + port && port != "" && AllDigits(port) {
      ServerSplitsAtPort(server, host, port);
    }
    if ApplyServer(server).port.Some? {
      var split := ApplyServer(server);
      ServerSplitsAtPort(server, split.gateway, split.port.value);
    }
  }

  // ----- Names and values -----

  /** The elements that are captured. */
  lemma CapturedElements(name: string)
    ensures FieldFor(name) == Name <==> name == "name"
    ensures FieldFor(name) == Description <==> name == "description"
    ensures FieldFor(name) == Server <==> name == "server"
    ensures FieldFor(name) == Username <==> name == "username"
    ensures FieldFor(name) == Sso <==> name == "sso_enabled"
  {
  }

  predicate AllSpace(s: string) {
    forall c <- s :: c in [' ', '\t', '\n', '\U{c}', '\r']
  }

  /** Neither end is white space. */
  predicate Trimmed(s: string) {
    s != "" ==> !AllSpace([s[0]]) && !AllSpace([s[|s| - 1]])
  }

  lemma {:induction false} StripLeftIs(s: string) returns (before: string)
    ensures s == before + StripLeft(s) && AllSpace(before)
    ensures StripLeft(s) != "" ==> !IsSpace(StripLeft(s)[0])
  {
    if s == "" || !IsSpace(s[0]) {
      before := "";
    } else {
      before := StripLeftIs(s[1..]);
      before := [s[0]] + before;
    }
  }

  lemma {:induction false} StripRightIs(s: string) returns (after: string)
    ensures s == StripRight(s) + after && AllSpace(after)
    ensures StripRight(s) != "" ==> !IsSpace(StripRight(s)[|StripRight(s)| - 1])
  {
    var n := |s| - 1;
    if s == "" || !IsSpace(s[n]) {
      after := "";
    } else {
      after := StripRightIs(s[..n]);
      assert s == s[..n] + [s[n]];
      after := after + [s[n]];
    }
  }

  /** Stripping takes exactly the white space off both ends. */
  lemma StripExactly(s: string) returns (before: string, after: string)
    ensures s == before + Strip(s) + after && AllSpace(before) && AllSpace(after)
    ensures Trimmed(Strip(s))
  {
    before := StripLeftIs(s);
    after := StripRightIs(StripLeft(s));
    StrippedIsTrimmed(StripLeft(s), StripRight(StripLeft(s)), after);
  }

  lemma StrippedIsTrimmed(u: string, t: string, after: string)
    requires u == t + after
    requires u != "" ==> !IsSpace(u[0])
    requires t != "" ==> !IsSpace(t[|t| - 1])
    ensures Trimmed(t)
  {
    if t != "" {
      assert u[0] == t[0];
      assert t[0] in [t[0]] && t[|t| - 1] in [t[|t| - 1]];
    }
  }

  /** The texts that switch SSO on. */
  lemma TrueExactly(val: string)
    ensures IsTrue(val) <==>
      || val == "1"
      || (|val| == 4 && val[0] in "tT" && val[1] in "rR" && val[2] in "uU" && val[3] in "eE")
  {
    LowerAt(val);
    if Lower(val) == "true" {
      assert forall k :: 0 <= k < 4 ==> LowerChar(val[k]) == "true"[k];
    }
    if |val| == 4 && val[0] in "tT" && val[1] in "rR" && val[2] in "uU" && val[3] in "eE" {
      assert Lower(val) == "true";
    }
  }

  lemma {:induction false} LowerAt(s: string)
    ensures |Lower(s)| == |s| && forall k :: 0 <= k < |s| ==> Lower(s)[k] == LowerChar(s[k])
    decreases |s|
  {
    if s == "" {
    } else {
      LowerAt(s[1..]);
      assert forall k :: 0 < k < |s| ==> Lower(s)[k] == Lower(s[1..])[k - 1];
    }
  }
}
