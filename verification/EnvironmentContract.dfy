/**
 * The environment contract between crosswire and the pppd plugin
 * (pppd-plugin/CROSSWIRE_ENV_CONTRACT.md): what is printed in the documented form is read back
 * exactly, and a malformed entry never affects its neighbours.
 */
module EnvironmentContract {
  import opened Options
  import opened Text
  import opened NetParams
  import opened InPlaceParsing

  function PrintIpv4(a: Ipv4): string {
    Join([Decimal(a.a), Decimal(a.b), Decimal(a.c), Decimal(a.d)], '.')
  }

  function PrintRoute(r: Route): string {
    PrintIpv4(r.network) + "/" + Decimal(r.prefix)
  }

  function PrintAll<T>(show: T -> string, items: seq<T>): seq<string> {
    if items == [] then [] else [show(items[0])] + PrintAll(show, items[1..])
  }

  function PrintRoutes(rs: seq<Route>): string {
    Join(PrintAll(PrintRoute, rs), ',')
  }

  function PrintServers(servers: seq<Ipv4>): string {
    Join(PrintAll(PrintIpv4, servers), ',')
  }

  // ----- One entry -----

  predicate DigitOrDot(c: char) {
    IsDigit(c) || c == '.'
  }

  lemma {:induction false} JoinedDigits(fields: seq<string>)
    requires forall f <- fields :: AllDigits(f)
    ensures forall c <- Join(fields, '.') :: DigitOrDot(c)
    decreases |fields|
  {
    if |fields| == 1 {
      assert fields[0] in fields;
    } else if fields != [] {
      JoinedDigits(fields[1..]);
      assert fields[0] in fields;
    }
  }

  lemma PrintedIpv4(a: Ipv4)
    ensures Split(PrintIpv4(a), '.') == [Decimal(a.a), Decimal(a.b), Decimal(a.c), Decimal(a.d)]
    ensures forall c <- PrintIpv4(a) :: DigitOrDot(c)
  {
    var fields := [Decimal(a.a), Decimal(a.b), Decimal(a.c), Decimal(a.d)];
    SplitJoin(fields, '.');
    JoinedDigits(fields);
  }

  /** Printed fields have no leading zeros, so it does not matter whether they are read. */
  lemma OctetRoundTrip(x: Octet)
    ensures ParseOctet(Decimal(x)) == Some(x)
  {
    DecimalValue(x);
  }

  lemma Ipv4RoundTrip(a: Ipv4)
    ensures InetPton(PrintIpv4(a)) == Some(a)
  {
    PrintedIpv4(a);
    OctetRoundTrip(a.a);
    OctetRoundTrip(a.b);
    OctetRoundTrip(a.c);
    OctetRoundTrip(a.d);
  }

  lemma PrefixRoundTrip(n: nat)
    ensures UnboundedInt(Decimal(n)) == Some(n)
  {
    DecimalValue(n);
    var s := Decimal(n);
    assert IsDigit(s[0]);
    assert s[SignLength(s)..] == s;
  }

  lemma RouteRoundTrip(r: Route)
    requires r.prefix <= 32
    ensures ParseRoute(PrintRoute(r)) == Some(r)
  {
    PrintedIpv4(r.network);
    assert '/' !in PrintIpv4(r.network);
    SplitsAtSlash(PrintIpv4(r.network), Decimal(r.prefix));
    Ipv4RoundTrip(r.network);
    PrefixRoundTrip(r.prefix);
  }

  lemma NoCommaInRoute(r: Route)
    ensures ',' !in PrintRoute(r)
  {
    PrintedIpv4(r.network);
    var network, prefix := PrintIpv4(r.network), Decimal(r.prefix);
    assert ',' !in network && ',' !in prefix;
  }

  // ----- Whole variables -----

  /** Every item survives printing and parsing, and prints without a separator. */
  ghost predicate Survives<T>(parse: string -> Option<T>, show: T -> string, items: seq<T>) {
    forall i :: 0 <= i < |items| ==> parse(show(items[i])) == Some(items[i]) && ',' !in show(items[i])
  }

  lemma {:induction false} CollectPrinted<T>(parse: string -> Option<T>, show: T -> string, items: seq<T>)
    requires Survives(parse, show, items)
    ensures Collect(parse, PrintAll(show, items)) == items
    ensures |PrintAll(show, items)| == |items|
    ensures forall s <- PrintAll(show, items) :: ',' !in s
    decreases |items|
  {
    if items == [] {
    } else {
      CollectPrinted(parse, show, items[1..]);
      assert PrintAll(show, items)[1..] == PrintAll(show, items[1..]);
    }
  }

  lemma EntriesPrinted<T>(parse: string -> Option<T>, show: T -> string, items: seq<T>)
    requires Survives(parse, show, items) && parse("").None?
    ensures Entries(parse, Join(PrintAll(show, items), ',')) == items
  {
    CollectPrinted(parse, show, items);
    if items == [] {
      NoEntries(parse);
    } else {
      SplitJoin(PrintAll(show, items), ',');
    }
  }

  /** Any list of networks with prefixes 0 to 32 is read back exactly. */
  lemma RoutesRoundTrip(rs: seq<Route>)
    requires forall r <- rs :: r.prefix <= 32
    ensures Routes(PrintRoutes(rs)) == rs
  {
    EmptyEntry();
    forall i | 0 <= i < |rs|
      ensures ParseRoute(PrintRoute(rs[i])) == Some(rs[i]) && ',' !in PrintRoute(rs[i])
    {
      RouteRoundTrip(rs[i]);
      NoCommaInRoute(rs[i]);
    }
    EntriesPrinted(ParseRoute, PrintRoute, rs);
  }

  /** Any list of DNS addresses is read back exactly. */
  lemma ServersRoundTrip(servers: seq<Ipv4>)
    ensures Servers(PrintServers(servers)) == servers
  {
    EmptyEntry();
    forall i | 0 <= i < |servers|
      ensures InetPton(PrintIpv4(servers[i])) == Some(servers[i]) && ',' !in PrintIpv4(servers[i])
    {
      Ipv4RoundTrip(servers[i]);
      PrintedIpv4(servers[i]);
    }
    EntriesPrinted(InetPton, PrintIpv4, servers);
  }

  /** What the route parser leaves in its output array when the printed list fits. */
  lemma ParserReturnsPrintedRoutes(out: seq<Route>, was: seq<Route>, n: nat, rs: seq<Route>, max: nat)
    requires (forall r <- rs :: r.prefix <= 32) && |rs| <= max
    requires Filled(out, was, n, Routes(PrintRoutes(rs)), max)
    ensures out[..n] == rs && out[n..] == was[n..]
  {
    RoutesRoundTrip(rs);
  }

  /** What the DNS parser leaves in its output array when the printed list fits. */
  lemma ParserReturnsPrintedServers(out: seq<Ipv4>, was: seq<Ipv4>, n: nat, servers: seq<Ipv4>, max: nat)
    requires |servers| <= max && Filled(out, was, n, Servers(PrintServers(servers)), max)
    ensures out[..n] == servers && out[n..] == was[n..]
  {
    ServersRoundTrip(servers);
  }

  // ----- Independence of neighbours -----

  lemma {:induction false} CollectConcat<T>(parse: string -> Option<T>, a: seq<string>, b: seq<string>)
    ensures Collect(parse, a + b) == Collect(parse, a) + Collect(parse, b)
    decreases |a|
  {
    if a == [] {
      assert a + b == b;
    } else {
      CollectConcat(parse, a[1..], b);
      assert (a + b)[1..] == a[1..] + b;
      ConcatAssociates(Found(parse(a[0])), Collect(parse, a[1..]), Collect(parse, b));
    }
  }

  lemma EntriesConcat<T>(parse: string -> Option<T>, a: string, b: string)
    ensures Entries(parse, a + "," + b) == Entries(parse, a) + Entries(parse, b)
  {
    SplitConcat(a, b, ',');
    CollectConcat(parse, Split(a, ','), Split(b, ','));
  }

  /** `out` begins with the first `max` items of `first` followed by `second`. */
  predicate HoldsFirst<T(==)>(out: seq<T>, n: nat, first: seq<T>, second: seq<T>, max: nat) {
    var both := first + second;
    n == (if |both| < max then |both| else max) && n <= |out| && out[..n] == both[..n]
  }

  /**
   * However malformed the two texts, parsing "a,b" with a limit gives the first results of
   * parsing a and then b without one.
   */
  lemma ParsingIsHomomorphism(a: string, b: string, out: seq<Route>, was: seq<Route>, n: nat, max: nat)
    requires Filled(out, was, n, Routes(a + "," + b), max)
    ensures HoldsFirst(out, n, Routes(a), Routes(b), max)
  {
    EntriesConcat(ParseRoute, a, b);
  }

  /** The same for addresses. */
  lemma ServersAreHomomorphic(a: string, b: string, out: seq<Ipv4>, was: seq<Ipv4>, n: nat, max: nat)
    requires Filled(out, was, n, Servers(a + "," + b), max)
    ensures HoldsFirst(out, n, Servers(a), Servers(b), max)
    ensures Servers(a + "," + b) == Servers(a) + Servers(b)
  {
    EntriesConcat(InetPton, a, b);
  }

  lemma {:induction false} CollectedPrefixes(entries: seq<string>)
    ensures forall r <- Collect(ParseRoute, entries) :: r.prefix <= 32
    decreases |entries|
  {
    if entries == [] {
    } else {
      CollectedPrefixes(entries[1..]);
    }
  }

  /** No route with a prefix beyond 32 is ever reported. */
  lemma PrefixesAreBounded(text: string)
    ensures forall r <- Routes(text) :: r.prefix <= 32
  {
    CollectedPrefixes(Split(text, ','));
  }

  // ----- Addresses, exactly -----

  /** An octet is a numeral up to 255, in its decimal form unless leading zeros are read. */
  lemma ParseOctetExactly(s: string, x: Octet)
    ensures !READS_LEADING_ZEROS ==> (ParseOctet(s) == Some(x) <==> s == Decimal(x))
    ensures READS_LEADING_ZEROS ==> (ParseOctet(s) == Some(x) <==> 1 <= |s| <= 3 && AllDigits(s) && Value(s) == x)
  {
    DecimalValue(x);
    if ParseOctet(s) == Some(x) && !READS_LEADING_ZEROS {
      DecimalOfValue(s);
    }
  }

  /** A C library that refuses leading zeros reads exactly the printed addresses. */
  lemma InetPtonExactly(s: string, a: Ipv4)
    requires !READS_LEADING_ZEROS
    ensures InetPton(s) == Some(a) <==> s == PrintIpv4(a)
  {
    Ipv4RoundTrip(a);
    if InetPton(s) == Some(a) {
      var f := Split(s, '.');
      ParseOctetExactly(f[0], a.a);
      ParseOctetExactly(f[1], a.b);
      ParseOctetExactly(f[2], a.c);
      ParseOctetExactly(f[3], a.d);
      assert f == [Decimal(a.a), Decimal(a.b), Decimal(a.c), Decimal(a.d)];
      JoinSplit(s, '.');
    }
  }

  /** One that reads them reads exactly four fields of one to three digits up to 255. */
  lemma InetPtonFields(s: string, a: Ipv4)
    requires READS_LEADING_ZEROS
    ensures
      var f := Split(s, '.');
      InetPton(s) == Some(a) <==>
        && |f| == 4
        && (forall i :: 0 <= i < 4 ==> 1 <= |f[i]| <= 3 && AllDigits(f[i]))
        && Value(f[0]) == a.a && Value(f[1]) == a.b && Value(f[2]) == a.c && Value(f[3]) == a.d
  {
    var f := Split(s, '.');
    if |f| == 4 {
      ParseOctetExactly(f[0], a.a);
      ParseOctetExactly(f[1], a.b);
      ParseOctetExactly(f[2], a.c);
      ParseOctetExactly(f[3], a.d);
    }
  }

  /** A printed address, written out. */
  lemma PrintedAddress()
    ensures PrintIpv4(Ipv4(192, 168, 10, 255)) == "192.168.10.255"
    ensures PrintRoute(Route(Ipv4(10, 0, 0, 0), 8)) == "10.0.0.0/8"
  {
    DecimalOfDigits();
    var a, b := ["192", "168", "10", "255"], ["10", "0", "0", "0"];
    assert a[1..] == ["168", "10", "255"] && a[1..][1..] == ["10", "255"] && a[1..][1..][1..] == ["255"];
    assert b[1..] == ["0", "0", "0"] && b[1..][1..] == ["0", "0"] && b[1..][1..][1..] == ["0"];
  }

  lemma DecimalOfDigits()
    ensures Decimal(0) == "0" && Decimal(8) == "8" && Decimal(10) == "10"
    ensures Decimal(192) == "192" && Decimal(168) == "168" && Decimal(255) == "255"
  {
    assert Decimal(1) == "1" && Decimal(2) == "2";
    assert Decimal(19) == "19" && Decimal(16) == "16" && Decimal(25) == "25";
  }
}
