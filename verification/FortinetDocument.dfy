/**
 * The streaming importer against a walk of the document tree: which connection wins, and where
 * each captured value comes from.
 */
module FortinetDocument {
  import opened Options
  import opened Text
  import opened FortinetImport

  datatype Node = Element(name: string, children: seq<Node>) | Chars(text: string)

  // ----- The event stream of a document -----

  function Events(n: Node): seq<Event>
    decreases n, 1
  {
    match n
    case Chars(text) => [Characters(text)]
    case Element(name, children) => [StartElement(name)] + AllEvents(children) + [EndElement(name)]
  }

  function AllEvents(ns: seq<Node>): seq<Event>
    decreases ns, 0
  {
    if ns == [] then [] else Events(ns[0]) + AllEvents(ns[1..])
  }

  // ----- The tree walk -----

  datatype Leaf = Leaf(field: Field, val: string)

  function TextOf(ns: seq<Node>): string {
    if ns == [] then ""
    else (if ns[0].Chars? then ns[0].text else "") + TextOf(ns[1..])
  }

  /** The field elements below a connection, in document order. */
  function Leaves(ns: seq<Node>): seq<Leaf>
    decreases ns
  {
    if ns == [] then []
    else
      var n := ns[0];
      var first :=
        if n.Chars? then []
        else if FieldFor(n.name) != NoField then [Leaf(FieldFor(n.name), Strip(TextOf(n.children)))]
        else Leaves(n.children);
      first + Leaves(ns[1..])
  }

  /** The connections inside sslvpn elements, in document order, each as its leaves. */
  function Connections(ns: seq<Node>, inSslvpn: bool): seq<seq<Leaf>>
    decreases ns, 0
  {
    if ns == [] then [] else NodeConnections(ns[0], inSslvpn) + Connections(ns[1..], inSslvpn)
  }

  function NodeConnections(n: Node, inSslvpn: bool): seq<seq<Leaf>>
    decreases n, 1
  {
    if n.Chars? then []
    else if n.name == "sslvpn" then Connections(n.children, true)
    else if inSslvpn && n.name == "connection" then [Leaves(n.children)]
    else Connections(n.children, inSslvpn)
  }

  // ----- The documents considered -----

  predicate AllText(ns: seq<Node>) {
    forall i :: 0 <= i < |ns| ==> ns[i].Chars?
  }

  /** Inside a connection: no nested sslvpn or connection, and field elements hold text only. */
  predicate PlainConnection(ns: seq<Node>)
    decreases ns
  {
    ns == [] ||
    (var n := ns[0];
     && PlainConnection(ns[1..])
     && (n.Element? ==>
           && n.name != "sslvpn" && n.name != "connection"
           && (if FieldFor(n.name) != NoField then AllText(n.children) else PlainConnection(n.children))))
  }

  /** sslvpn does not nest, and every connection inside it is plain; elsewhere anything goes. */
  predicate PlainDocument(ns: seq<Node>, inSslvpn: bool)
    decreases ns, 0
  {
    ns == [] || (PlainNode(ns[0], inSslvpn) && PlainDocument(ns[1..], inSslvpn))
  }

  predicate PlainNode(n: Node, inSslvpn: bool)
    decreases n, 1
  {
    n.Element? ==>
      if n.name == "sslvpn" then !inSslvpn && PlainDocument(n.children, true)
      else if inSslvpn && n.name == "connection" then PlainConnection(n.children)
      else PlainDocument(n.children, inSslvpn)
  }

  // ----- Feeding a tree to the callbacks -----

  lemma FieldNamesAreOther(name: string)
    requires FieldFor(name) != NoField
    ensures name != "sslvpn" && name != "connection"
  {
  }

  lemma RunElement(p: Parse, name: string, children: seq<Node>)
    ensures Run(p, Events(Element(name, children))) == OnEnd(Run(OnStart(p, name), AllEvents(children)), name)
  {
    var body := AllEvents(children);
    RunConcat(p, [StartElement(name)] + body, [EndElement(name)]);
    RunConcat(p, [StartElement(name)], body);
    assert Run(p, [StartElement(name)]) == Run(OnStart(p, name), []);
    var q := Run(OnStart(p, name), body);
    assert Run(q, [EndElement(name)]) == Run(OnEnd(q, name), []);
  }

  lemma RunChars(p: Parse, text: string)
    ensures Run(p, Events(Chars(text))) == OnText(p, text)
  {
    assert Run(p, [Characters(text)]) == Run(OnText(p, text), []);
  }

  lemma RunFirst(p: Parse, ns: seq<Node>)
    requires ns != []
    ensures Run(p, AllEvents(ns)) == Run(Run(p, Events(ns[0])), AllEvents(ns[1..]))
  {
    RunConcat(p, Events(ns[0]), AllEvents(ns[1..]));
  }

  lemma {:induction false} RunText(p: Parse, ns: seq<Node>)
    requires AllText(ns) && p.reading != NoField
    ensures Run(p, AllEvents(ns)) == p.(text := p.text + TextOf(ns))
    decreases ns
  {
    if ns == [] {
      assert p.text + "" == p.text;
    } else {
      RunFirst(p, ns);
      RunChars(p, ns[0].text);
      RunText(OnText(p, ns[0].text), ns[1..]);
      ConcatAssociates(p.text, ns[0].text, TextOf(ns[1..]));
    }
  }

  function CaptureAll(c: Captured, leaves: seq<Leaf>): Captured
    decreases |leaves|
  {
    if leaves == [] then c else CaptureAll(Capture(c, leaves[0].field, leaves[0].val), leaves[1..])
  }

  lemma {:induction false} CaptureConcat(c: Captured, a: seq<Leaf>, b: seq<Leaf>)
    ensures CaptureAll(c, a + b) == CaptureAll(CaptureAll(c, a), b)
    decreases |a|
  {
    if a == [] {
      assert a + b == b;
    } else {
      CaptureConcat(Capture(c, a[0].field, a[0].val), a[1..], b);
      assert (a + b)[1..] == a[1..] + b;
    }
  }

  /** The two results agree, whatever is left in the text accumulator. */
  predicate SameButText(p: Parse, q: Parse) {
    p.(text := "") == q.(text := "")
  }

  /** Between the leaves of a connection. */
  predicate BetweenLeaves(p: Parse) {
    p.inConnection && !p.done && p.reading == NoField
  }

  lemma RunLeaf(p: Parse, n: Node)
    requires BetweenLeaves(p) && n.Element? && FieldFor(n.name) != NoField && AllText(n.children)
    ensures SameButText(Run(p, Events(n)), p.(got := Capture(p.got, FieldFor(n.name), Strip(TextOf(n.children)))))
  {
    FieldNamesAreOther(n.name);
    RunElement(p, n.name, n.children);
    RunText(OnStart(p, n.name), n.children);
    assert "" + TextOf(n.children) == TextOf(n.children);
  }

  /** Inside a connection the callbacks capture exactly the leaves, in order. */
  lemma {:induction false} RunConnectionBody(p: Parse, ns: seq<Node>)
    requires BetweenLeaves(p) && PlainConnection(ns)
    ensures SameButText(Run(p, AllEvents(ns)), p.(got := CaptureAll(p.got, Leaves(ns))))
    decreases ns
  {
    if ns == [] {
    } else {
      var n := ns[0];
      RunFirst(p, ns);
      var q := Run(p, Events(n));
      if n.Chars? {
        RunChars(p, n.text);
        assert [] + Leaves(ns[1..]) == Leaves(ns[1..]);
      } else if FieldFor(n.name) != NoField {
        RunLeaf(p, n);
        var leaf := Leaf(FieldFor(n.name), Strip(TextOf(n.children)));
        assert ([leaf] + Leaves(ns[1..]))[1..] == Leaves(ns[1..]);
      } else {
        RunElement(p, n.name, n.children);
        RunConnectionBody(p, n.children);
        CaptureConcat(p.got, Leaves(n.children), Leaves(ns[1..]));
      }
      RunConnectionBody(q, ns[1..]);
    }
  }

  datatype Walked = Walked(got: Captured, done: bool)

  /** Go through the connections until one has a server. */
  function Walk(w: Walked, connections: seq<seq<Leaf>>): Walked
    decreases |connections|
  {
    if connections == [] || w.done then w
    else
      var got := CaptureAll(w.got, connections[0]);
      Walk(Walked(got, HasServer(got)), connections[1..])
  }

  lemma {:induction false} WalkConcat(w: Walked, a: seq<seq<Leaf>>, b: seq<seq<Leaf>>)
    ensures Walk(w, a + b) == Walk(Walk(w, a), b)
    decreases |a|
  {
    if a == [] {
      assert a + b == b;
    } else if !w.done {
      var got := CaptureAll(w.got, a[0]);
      WalkConcat(Walked(got, HasServer(got)), a[1..], b);
      assert (a + b)[1..] == a[1..] + b;
    }
  }

  /** Not inside a connection that counts. */
  predicate Outside(p: Parse, inSslvpn: bool) {
    p.inSslvpn == inSslvpn && !p.inConnection && p.reading == NoField
  }

  function After(p: Parse, connections: seq<seq<Leaf>>): Parse {
    var w := Walk(Walked(p.got, p.done), connections);
    p.(got := w.got, done := w.done)
  }

  lemma RunConnection(p: Parse, n: Node)
    requires Outside(p, true) && n.Element? && n.name == "connection" && PlainConnection(n.children)
    requires p.done ==> Inv(p)
    ensures SameButText(Run(p, Events(n)), After(p, [Leaves(n.children)]))
  {
    RunElement(p, n.name, n.children);
    if p.done {
      FrozenOutside(p, n.children);
    } else {
      RunConnectionBody(p.(inConnection := true), n.children);
      var got := CaptureAll(p.got, Leaves(n.children));
      assert [Leaves(n.children)][1..] == [];
      assert Walk(Walked(p.got, false), [Leaves(n.children)]) == Walk(Walked(got, HasServer(got)), []);
    }
  }

  /** Once a connection has been chosen, plain content changes nothing at all. */
  lemma {:induction false} FrozenOutside(p: Parse, ns: seq<Node>)
    requires Outside(p, true) && p.done && PlainConnection(ns)
    ensures Run(p, AllEvents(ns)) == p
    decreases ns
  {
    if ns == [] {
    } else {
      var n := ns[0];
      RunFirst(p, ns);
      if n.Chars? {
        RunChars(p, n.text);
      } else {
        RunElement(p, n.name, n.children);
        if FieldFor(n.name) != NoField {
          FrozenText(p, n.children);
        } else {
          FrozenOutside(p, n.children);
        }
      }
      FrozenOutside(p, ns[1..]);
    }
  }

  lemma {:induction false} FrozenText(p: Parse, ns: seq<Node>)
    requires p.reading == NoField && AllText(ns)
    ensures Run(p, AllEvents(ns)) == p
    decreases ns
  {
    if ns == [] {
    } else {
      RunFirst(p, ns);
      RunChars(p, ns[0].text);
      FrozenText(p, ns[1..]);
    }
  }

  /** Over a whole document the callbacks do what the walk over its connections does. */
  lemma {:induction false} RunDocument(p: Parse, ns: seq<Node>, inSslvpn: bool)
    requires Outside(p, inSslvpn) && Inv(p) && PlainDocument(ns, inSslvpn)
    ensures SameButText(Run(p, AllEvents(ns)), After(p, Connections(ns, inSslvpn)))
    decreases ns, 0
  {
    if ns == [] {
    } else {
      RunFirst(p, ns);
      RunNode(p, ns[0], inSslvpn);
      InvForEveryRun(p, Events(ns[0]));
      RunDocument(Run(p, Events(ns[0])), ns[1..], inSslvpn);
      WalkConcat(Walked(p.got, p.done), NodeConnections(ns[0], inSslvpn), Connections(ns[1..], inSslvpn));
    }
  }

  lemma {:induction false} RunNode(p: Parse, n: Node, inSslvpn: bool)
    requires Outside(p, inSslvpn) && Inv(p) && PlainNode(n, inSslvpn)
    ensures SameButText(Run(p, Events(n)), After(p, NodeConnections(n, inSslvpn)))
    decreases n, 1
  {
    if n.Chars? {
      RunChars(p, n.text);
    } else {
      RunElement(p, n.name, n.children);
      if n.name == "sslvpn" {
        RunDocument(p.(inSslvpn := true), n.children, true);
      } else if inSslvpn && n.name == "connection" {
        RunConnection(p, n);
      } else {
        RunDocument(p, n.children, inSslvpn);
      }
    }
  }

  // ----- Which connection wins, and where its values come from -----

  /** The value of the last leaf for `f`. */
  function LastOf(leaves: seq<Leaf>, f: Field): Option<string> {
    if leaves == [] then None
    else
      var later := LastOf(leaves[1..], f);
      if later.Some? then later
      else if leaves[0].field == f then Some(leaves[0].val)
      else None
  }

  function Or<T>(a: Option<T>, b: Option<T>): Option<T> {
    if a.Some? then a else b
  }

  function Flag(v: Option<string>): bool {
    v.Some? && IsTrue(v.value)
  }

  /** `got` holds the last value of each field in `leaves`, or else what `before` held. */
  predicate HoldsLast(got: Captured, before: Captured, leaves: seq<Leaf>) {
    && got.name == Or(LastOf(leaves, Name), before.name)
    && got.description == Or(LastOf(leaves, Description), before.description)
    && got.server == Or(LastOf(leaves, Server), before.server)
    && got.username == Or(LastOf(leaves, Username), before.username)
    && got.sso == if LastOf(leaves, Sso).Some? then Flag(LastOf(leaves, Sso)) else before.sso
  }

  lemma {:induction false} CaptureAllHoldsLast(c: Captured, leaves: seq<Leaf>)
    ensures HoldsLast(CaptureAll(c, leaves), c, leaves)
    decreases |leaves|
  {
    if leaves == [] {
    } else {
      CaptureAllHoldsLast(Capture(c, leaves[0].field, leaves[0].val), leaves[1..]);
    }
  }

  predicate NamesServer(leaves: seq<Leaf>) {
    LastOf(leaves, Server).Some? && LastOf(leaves, Server).value != ""
  }

  /** The first connection whose last server is not blank. */
  predicate Wins(connections: seq<seq<Leaf>>, k: int) {
    && 0 <= k < |connections|
    && NamesServer(connections[k])
    && forall j :: 0 <= j < k ==> !NamesServer(connections[j])
  }

  function Flat(connections: seq<seq<Leaf>>): seq<Leaf> {
    if connections == [] then [] else connections[0] + Flat(connections[1..])
  }

  lemma {:induction false} WalkToWinner(got: Captured, connections: seq<seq<Leaf>>, k: nat)
    requires !HasServer(got) && Wins(connections, k)
    ensures Walk(Walked(got, false), connections)
      == Walked(CaptureAll(got, Flat(connections[..k + 1])), true)
    ensures HasServer(CaptureAll(got, Flat(connections[..k + 1])))
    decreases k
  {
    var first, rest := connections[0], connections[1..];
    var next := CaptureAll(got, first);
    CaptureAllHoldsLast(got, first);
    if k == 0 {
      assert connections[..1] == [first] && [first][1..] == [];
      assert Flat([first]) == first + Flat([]) == first;
      assert Walk(Walked(got, false), connections) == Walk(Walked(next, true), rest);
    } else {
      assert !NamesServer(first);
      assert Wins(rest, k - 1) by {
        assert forall j :: 0 <= j < k - 1 ==> rest[j] == connections[j + 1];
      }
      WalkToWinner(next, rest, k - 1);
      assert connections[..k + 1][1..] == rest[..k];
      CaptureConcat(got, first, Flat(rest[..k]));
    }
  }

  lemma {:induction false} WalkWithoutWinner(got: Captured, connections: seq<seq<Leaf>>)
    requires !HasServer(got) && forall j :: 0 <= j < |connections| ==> !NamesServer(connections[j])
    ensures !HasServer(Walk(Walked(got, false), connections).got)
    decreases |connections|
  {
    if connections == [] {
    } else {
      var next := CaptureAll(got, connections[0]);
      CaptureAllHoldsLast(got, connections[0]);
      assert !NamesServer(connections[0]);
      assert forall j :: 0 <= j < |connections[1..]| ==> connections[1..][j] == connections[j + 1];
      WalkWithoutWinner(next, connections[1..]);
    }
  }

  lemma SomeoneWins(connections: seq<seq<Leaf>>, k: nat) returns (first: nat)
    requires k < |connections| && NamesServer(connections[k])
    ensures Wins(connections, first)
  {
    first := 0;
    while !NamesServer(connections[first])
      invariant first <= k
      invariant forall j :: 0 <= j < first ==> !NamesServer(connections[j])
      decreases k - first
    {
      first := first + 1;
    }
  }

  function CapturedFrom(doc: seq<Node>): Captured {
    Run(INITIAL, AllEvents(doc)).got
  }

  lemma CapturedIsWalked(doc: seq<Node>)
    requires PlainDocument(doc, false)
    ensures CapturedFrom(doc) == Walk(Walked(NOTHING, false), Connections(doc, false)).got
  {
    RunDocument(INITIAL, doc, false);
  }

  /** The import fails exactly when no SSL-VPN connection of the document names a server. */
  lemma FailsWithoutServer(doc: seq<Node>)
    requires PlainDocument(doc, false)
    ensures ImportOf(CapturedFrom(doc)).None? <==>
      forall k :: 0 <= k < |Connections(doc, false)| ==> !NamesServer(Connections(doc, false)[k])
  {
    var connections := Connections(doc, false);
    CapturedIsWalked(doc);
    if k :| 0 <= k < |connections| && NamesServer(connections[k]) {
      var first := SomeoneWins(connections, k);
      WalkToWinner(NOTHING, connections, first);
    } else {
      WalkWithoutWinner(NOTHING, connections);
    }
  }

  lemma {:induction false} LastOfConcat(a: seq<Leaf>, b: seq<Leaf>, f: Field)
    ensures LastOf(a + b, f) == Or(LastOf(b, f), LastOf(a, f))
    decreases |a|
  {
    if a == [] {
      assert a + b == b;
    } else {
      LastOfConcat(a[1..], b, f);
      assert (a + b)[1..] == a[1..] + b;
    }
  }

  lemma {:induction false} FlatLast(connections: seq<seq<Leaf>>)
    requires connections != []
    ensures Flat(connections) == Flat(connections[..|connections| - 1]) + connections[|connections| - 1]
    decreases |connections|
  {
    var n := |connections| - 1;
    if n == 0 {
      assert connections[1..] == [] && connections[0] + [] == connections[0];
      assert Flat(connections[..0]) + connections[0] == connections[0];
    } else {
      FlatLast(connections[1..]);
      assert connections[1..][..n - 1] == connections[..n][1..];
      ConcatAssociates(connections[0], Flat(connections[..n][1..]), connections[n]);
    }
  }

  /** The leaves of the connections before the winner. */
  function Earlier(connections: seq<seq<Leaf>>, k: nat): seq<Leaf>
    requires k <= |connections|
  {
    Flat(connections[..k])
  }

  /**
   * The server is the winning connection's; every other value is the winning connection's if it
   * has the element, and otherwise the last one of the connections before it.
   */
  lemma ValuesOfWinner(doc: seq<Node>, k: nat)
    requires PlainDocument(doc, false) && Wins(Connections(doc, false), k)
    ensures
      var got, connections := CapturedFrom(doc), Connections(doc, false);
      var own, earlier := connections[k], Earlier(connections, k);
      && got.server == LastOf(own, Server)
      && got.name == Or(LastOf(own, Name), LastOf(earlier, Name))
      && got.description == Or(LastOf(own, Description), LastOf(earlier, Description))
      && got.username == Or(LastOf(own, Username), LastOf(earlier, Username))
      && got.sso == Flag(Or(LastOf(own, Sso), LastOf(earlier, Sso)))
  {
    var connections := Connections(doc, false);
    var own, earlier := connections[k], Earlier(connections, k);
    CapturedIsWalked(doc);
    WalkToWinner(NOTHING, connections, k);
    CaptureAllHoldsLast(NOTHING, Flat(connections[..k + 1]));
    FlatLast(connections[..k + 1]);
    assert connections[..k + 1][..k] == connections[..k];
    LastOfConcat(earlier, own, Server);
    LastOfConcat(earlier, own, Name);
    LastOfConcat(earlier, own, Description);
    LastOfConcat(earlier, own, Username);
    LastOfConcat(earlier, own, Sso);
  }

  /**
   * Each captured value is the winning connection's alone exactly when it is either present in
   * it or absent from every connection before it.
   */
  lemma CapturedAloneExactly(doc: seq<Node>, k: nat)
    requires PlainDocument(doc, false) && Wins(Connections(doc, false), k)
    ensures
      var got, connections := CapturedFrom(doc), Connections(doc, false);
      var own, earlier := connections[k], Earlier(connections, k);
      && (got.name == LastOf(own, Name) <==> LastOf(own, Name).Some? || LastOf(earlier, Name).None?)
      && (got.description == LastOf(own, Description) <==>
            LastOf(own, Description).Some? || LastOf(earlier, Description).None?)
      && (got.username == LastOf(own, Username) <==>
            LastOf(own, Username).Some? || LastOf(earlier, Username).None?)
      && (got.sso == Flag(LastOf(own, Sso)) <==> LastOf(own, Sso).Some? || !Flag(LastOf(earlier, Sso)))
  {
    ValuesOfWinner(doc, k);
  }

  // ----- What the user gets -----

  function NonBlank(leaves: seq<Leaf>, f: Field): Option<string> {
    NonEmptyText(LastOf(leaves, f))
  }

  /** `earlier` has a non-blank value for a field that `own` leaves out. */
  predicate Lends(own: seq<Leaf>, earlier: seq<Leaf>, f: Field) {
    LastOf(own, f).None? && NonBlank(earlier, f).Some?
  }

  /** The name comes first; a lent one is harmless only if it equals the description that it hides. */
  predicate IdIsOwn(own: seq<Leaf>, earlier: seq<Leaf>) {
    if NonBlank(own, Name).Some? then true
    else if Lends(own, earlier, Name) then NonBlank(own, Description) == NonBlank(earlier, Name)
    else !Lends(own, earlier, Description)
  }

  predicate LendsSso(own: seq<Leaf>, earlier: seq<Leaf>) {
    LastOf(own, Sso).None? && Flag(LastOf(earlier, Sso))
  }

  /** Under SSO no user is imported. */
  predicate UserIsOwn(own: seq<Leaf>, earlier: seq<Leaf>) {
    if LendsSso(own, earlier) then NonBlank(own, Username).None?
    else Flag(LastOf(own, Sso)) || !Lends(own, earlier, Username)
  }

  /**
   * The imported endpoint is always the winning connection's alone. The id, the kind of
   * authentication and the user are, each exactly when no earlier connection lends a value that
   * shows.
   */
  lemma WinnerAloneExactly(doc: seq<Node>, k: nat)
    requires PlainDocument(doc, false) && Wins(Connections(doc, false), k)
    ensures
      var own, earlier := Connections(doc, false)[k], Earlier(Connections(doc, false), k);
      var imported, alone := ImportOf(CapturedFrom(doc)), ImportOf(CaptureAll(NOTHING, own));
      && imported.Some? && alone.Some? && imported.value.endpoint == alone.value.endpoint
      && (imported.value.id == alone.value.id <==> IdIsOwn(own, earlier))
      && (imported.value.authType == alone.value.authType <==> !LendsSso(own, earlier))
      && (imported.value.user == alone.value.user <==> UserIsOwn(own, earlier))
      && (imported == alone <==>
            IdIsOwn(own, earlier) && !LendsSso(own, earlier) && UserIsOwn(own, earlier))
  {
    var own := Connections(doc, false)[k];
    ValuesOfWinner(doc, k);
    CaptureAllHoldsLast(NOTHING, own);
  }

  /**
   * The import is what the first connection alone would give exactly when that connection names
   * a server, or none does and there is no import.
   */
  lemma FirstConnectionExactly(doc: seq<Node>)
    requires PlainDocument(doc, false) && Connections(doc, false) != []
    ensures
      var connections := Connections(doc, false);
      ImportOf(CapturedFrom(doc)) == ImportOf(CaptureAll(NOTHING, connections[0])) <==>
        || NamesServer(connections[0])
        || forall k :: 0 <= k < |connections| ==> !NamesServer(connections[k])
  {
    var connections := Connections(doc, false);
    FailsWithoutServer(doc);
    CaptureAllHoldsLast(NOTHING, connections[0]);
    if NamesServer(connections[0]) {
      WinnerAloneExactly(doc, 0);
      assert Earlier(connections, 0) == [];
    }
  }

  /**
   * What is imported, in the words of the connection data: the kind of authentication is "saml"
   * exactly when the last sso_enabled is "1" or "true" in any case, and else "password" with the
   * last user name; the id is the last name, or else the last description; and the gateway is the
   * server up to a port at its end.
   */
  lemma ImportByWinner(doc: seq<Node>, k: nat)
    requires PlainDocument(doc, false) && Wins(Connections(doc, false), k)
    ensures ImportOf(CapturedFrom(doc)).Some?
    ensures
      var imported := ImportOf(CapturedFrom(doc)).value;
      var own, earlier := Connections(doc, false)[k], Earlier(Connections(doc, false), k);
      var sso := Or(LastOf(own, Sso), LastOf(earlier, Sso));
      var user := Or(LastOf(own, Username), LastOf(earlier, Username));
      var name := Or(LastOf(own, Name), LastOf(earlier, Name));
      var description := Or(LastOf(own, Description), LastOf(earlier, Description));
      && imported.authType in {"saml", "password"}
      && (imported.authType == "saml" <==> sso.Some? && IsTrue(sso.value))
      && (imported.authType == "saml" ==> imported.user == None)
      && (imported.authType == "password" ==> imported.user == if user == Some("") then None else user)
      && (name.Some? && name.value != "" ==> imported.id == name)
      && (name in {None, Some("")} ==> imported.id == if description == Some("") then None else description)
      && imported.endpoint == ApplyServer(LastOf(own, Server).value)
  {
    ValuesOfWinner(doc, k);
  }

  // ----- A document whose import is not the winner's alone -----

  const UNFINISHED := Element("connection", [Element("name", [Chars("old")])])
  const FINISHED := Element("connection", [Element("server", [Chars("gw")])])

  const LEAKING := [Element("forticlient_configuration", [Element("vpn", [
    Element("sslvpn", [Element("connections", [UNFINISHED, FINISHED])])])])]

  lemma OneElement(name: string, children: seq<Node>, inSslvpn: bool)
    requires name != "connection"
    requires name == "sslvpn" ==> !inSslvpn
    requires PlainDocument(children, inSslvpn || name == "sslvpn")
    ensures PlainDocument([Element(name, children)], inSslvpn)
    ensures Connections([Element(name, children)], inSslvpn) == Connections(children, inSslvpn || name == "sslvpn")
  {
    var doc := [Element(name, children)];
    assert doc[1..] == [] && PlainDocument([], inSslvpn) && Connections([], inSslvpn) == [];
    assert PlainNode(doc[0], inSslvpn);
    assert Connections(doc, inSslvpn) == NodeConnections(doc[0], inSslvpn) + [];
  }

  lemma OneLeaf(name: string, f: Field, text: string)
    requires f != NoField && FieldFor(name) == f && Strip(text) == text
    ensures Leaves([Element(name, [Chars(text)])]) == [Leaf(f, text)]
    ensures PlainConnection([Element(name, [Chars(text)])])
  {
    FieldNamesAreOther(name);
    assert TextOf([Chars(text)]) == text + TextOf([]) == text;
    assert [Element(name, [Chars(text)])][1..] == [];
    assert Leaves([]) == [] && PlainConnection([]);
  }

  lemma LeakingConnections()
    ensures PlainDocument(LEAKING, false)
    ensures Connections(LEAKING, false) == [[Leaf(Name, "old")], [Leaf(Server, "gw")]]
  {
    OneLeaf("name", Name, "old");
    OneLeaf("server", Server, "gw");
    var inner := [UNFINISHED, FINISHED];
    assert inner[1..] == [FINISHED] && [FINISHED][1..] == [];
    assert Connections([], true) == [] && PlainDocument([], true);
    assert PlainNode(UNFINISHED, true) && PlainNode(FINISHED, true);
    assert PlainDocument([FINISHED], true) && PlainDocument(inner, true);
    assert Connections([FINISHED], true) == [[Leaf(Server, "gw")]];
    assert Connections(inner, true) == [[Leaf(Name, "old")], [Leaf(Server, "gw")]];
    OneElement("connections", inner, true);
    var sslvpn := Element("sslvpn", [Element("connections", inner)]);
    OneElement("sslvpn", sslvpn.children, false);
    OneElement("vpn", [sslvpn], false);
    OneElement("forticlient_configuration", [Element("vpn", [sslvpn])], false);
  }

  /** A FortiClient configuration whose import bears the name of a connection without a server. */
  lemma StaleNameLeaks()
    ensures PlainDocument(LEAKING, false) && Wins(Connections(LEAKING, false), 1)
    ensures
      var imported := ImportOf(CapturedFrom(LEAKING));
      var alone := ImportOf(CaptureAll(NOTHING, Connections(LEAKING, false)[1]));
      && imported.Some? && imported.value.id == Some("old") && imported.value.endpoint.gateway == "gw"
      && alone.Some? && alone.value.id == None
    ensures ImportOf(CaptureAll(NOTHING, Connections(LEAKING, false)[0])) == None
  {
    LeakingConnections();
    var first, second := [Leaf(Name, "old")], [Leaf(Server, "gw")];
    OneValue(Leaf(Name, "old"));
    OneValue(Leaf(Server, "gw"));
    var connections := [first, second];
    assert connections[..1] == [first] && Flat([first]) == first + Flat([]) == first;
    assert Earlier(connections, 1) == first;
    ValuesOfWinner(LEAKING, 1);
    CaptureAllHoldsLast(NOTHING, first);
    CaptureAllHoldsLast(NOTHING, second);
    assert LastIndexOf("gw", ':') == -1;
  }

  lemma OneValue(leaf: Leaf)
    ensures forall f :: LastOf([leaf], f) == if f == leaf.field then Some(leaf.val) else None
  {
    assert [leaf][1..] == [] && forall f :: LastOf([], f) == None;
  }
}
