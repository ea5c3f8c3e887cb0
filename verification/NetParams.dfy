/**
 * What CROSSWIRE_ROUTES and CROSSWIRE_DNS mean: a split/filter/map reading of the documented
 * format, and the C library calls that the parsers of pppd-plugin/nm-crosswire-netparams.c make.
 *
 * A C string is what a buffer holds from a position up to the next NUL.
 */
module NetParams {
  import opened Options
  import opened Text

  const NUL := '\0'

  type Octet = x: nat | x < 256

  /** An address as its four bytes in network order, the layout of `s_addr`. */
  datatype Ipv4 = Ipv4(a: Octet, b: Octet, c: Octet, d: Octet)

  datatype Route = Route(network: Ipv4, prefix: nat)

  // ----- The C library -----

  function CString(mem: seq<char>, at: nat): string
    requires at <= |mem|
    decreases |mem| - at
  {
    if at == |mem| || mem[at] == NUL then "" else [mem[at]] + CString(mem, at + 1)
  }

  /**
   * Whether the C library reads a field with a leading zero, such as 010. Section 6.3 of RFC 3493
   * does not forbid it; glibc and musl refuse it. Nothing here depends on the answer.
   */
  const READS_LEADING_ZEROS: bool

  predicate LeadingZero(s: string) {
    |s| > 1 && s[0] == '0'
  }

  function ParseOctet(s: string): Option<Octet> {
    if 1 <= |s| <= 3 && AllDigits(s) && Value(s) <= 255 && (READS_LEADING_ZEROS || !LeadingZero(s))
    then Some(Value(s)) else None
  }

  /** inet_pton(AF_INET, ...), section 6.3 of RFC 3493: four fields of one to three digits. */
  function InetPton(s: string): Option<Ipv4> {
    var f := Split(s, '.');
    if |f| != 4 then None
    else MakeIpv4(ParseOctet(f[0]), ParseOctet(f[1]), ParseOctet(f[2]), ParseOctet(f[3]))
  }

  function MakeIpv4(a: Option<Octet>, b: Option<Octet>, c: Option<Octet>, d: Option<Octet>): Option<Ipv4> {
    if a.Some? && b.Some? && c.Some? && d.Some? then Some(Ipv4(a.value, b.value, c.value, d.value)) else None
  }

  predicate IsSpace(c: char) {
    c == ' ' || c == '\t' || c == '\n' || c == '\U{b}' || c == '\U{c}' || c == '\r'
  }

  function SpacePrefix(s: string): (k: nat)
    ensures k <= |s|
    ensures k < |s| ==> !IsSpace(s[k])
  {
    if s == "" || !IsSpace(s[0]) then 0 else 1 + SpacePrefix(s[1..])
  }

  function SignLength(s: string): (k: nat)
    ensures k <= |s|
  {
    if s != "" && (s[0] == '+' || s[0] == '-') then 1 else 0
  }

  function DigitPrefix(s: string): (k: nat)
    ensures k <= |s| && AllDigits(s[..k])
    ensures k < |s| ==> !IsDigit(s[k])
  {
    if s == "" || !IsDigit(s[0]) then 0 else 1 + DigitPrefix(s[1..])
  }

  const LONG_MAX: int := 0x7fff_ffff_ffff_ffff
  const LONG_MIN: int := -0x8000_0000_0000_0000

  function Saturate(v: int): int {
    if v > LONG_MAX then LONG_MAX else if v < LONG_MIN then LONG_MIN else v
  }

  datatype Conversion = Conversion(value: int, end: nat)

  /** strtol(s, &end, 10), section 7.22.1.4 of ISO C11, with a 64-bit long. */
  function Strtol(s: string): (r: Conversion)
    ensures r.end <= |s|
    ensures r.end == 0 ==> r.value == 0
  {
    var spaces := SpacePrefix(s);
    var sign := SignLength(s[spaces..]);
    var start := spaces + sign;
    var digits := DigitPrefix(s[start..]);
    if digits == 0 then Conversion(0, 0)
    else
      var v: int := Value(s[start..][..digits]);
      Conversion(Saturate(if sign == 1 && s[spaces] == '-' then -v else v), start + digits)
  }

  // ----- What the format means -----

  /** An optionally signed numeral after optional white space, read without any bound. */
  function UnboundedInt(s: string): Option<int>
    decreases |s|
  {
    if s != "" && IsSpace(s[0]) then UnboundedInt(s[1..])
    else
      var digits := s[SignLength(s)..];
      if digits == "" || !AllDigits(digits) then None
      else if s[0] == '-' then Some(0 - Value(digits))
      else Some(Value(digits))
  }

  function ParsePrefix(s: string): Option<nat> {
    var v := UnboundedInt(s);
    if v.Some? && 0 <= v.value <= 32 then Some(v.value) else None
  }

  function MakeRoute(network: Option<Ipv4>, prefix: Option<nat>): Option<Route> {
    if network.Some? && prefix.Some? then Some(Route(network.value, prefix.value)) else None
  }

  /** One entry of CROSSWIRE_ROUTES: an address, a slash, a prefix length up to 32. */
  function ParseRoute(entry: string): Option<Route> {
    var slash := IndexOf(entry, '/');
    if slash == |entry| then None
    else MakeRoute(InetPton(entry[..slash]), ParsePrefix(entry[slash + 1..]))
  }

  /** The entries that parse, in order. */
  function Collect<T>(parse: string -> Option<T>, entries: seq<string>): seq<T> {
    if entries == [] then []
    else
      Found(parse(entries[0])) + Collect(parse, entries[1..])
  }

  function Found<T>(r: Option<T>): seq<T> {
    if r.Some? then [r.value] else []
  }

  function Entries<T>(parse: string -> Option<T>, text: string): seq<T> {
    Collect(parse, Split(text, ','))
  }

  function Routes(text: string): seq<Route> {
    Entries(ParseRoute, text)
  }

  function Servers(text: string): seq<Ipv4> {
    Entries(InetPton, text)
  }

  // ----- strtol against unbounded integers -----

  lemma {:induction false} SkipSpaces(s: string)
    ensures UnboundedInt(s) == UnboundedInt(s[SpacePrefix(s)..])
    decreases |s|
  {
    if s != "" && IsSpace(s[0]) {
      SkipSpaces(s[1..]);
      assert s[SpacePrefix(s)..] == s[1..][SpacePrefix(s[1..])..];
    } else {
      assert s[0..] == s;
    }
  }

  /** The code's test on strtol's result accepts exactly the unbounded integers 0 to 32. */
  lemma SaturationIsHarmless(s: string)
    ensures
      var r := Strtol(s);
      (r.end != 0 && r.end == |s| && 0 <= r.value <= 32) <==> ParsePrefix(s).Some?
    ensures ParsePrefix(s).Some? ==> ParsePrefix(s).value == Strtol(s).value
  {
    SkipSpaces(s);
    var t := s[SpacePrefix(s)..];
    var digits := t[SignLength(t)..];
    assert s[SpacePrefix(s) + SignLength(t)..] == digits;
    var k := DigitPrefix(digits);
    if k == |digits| {
      assert digits[..k] == digits;
    } else {
      assert !AllDigits(digits);
    }
  }

  // ----- Reading entries one token at a time -----

  lemma EmptyEntry()
    ensures ParseRoute("") == None && InetPton("") == None
  {
    SplitField("", "", '.');
  }

  lemma {:induction false} SkipSeparator<T>(parse: string -> Option<T>, text: string)
    requires parse("").None? && text != "" && text[0] == ','
    ensures Entries(parse, text) == Entries(parse, text[1..])
  {
    assert text == "" + [','] + text[1..];
    SplitField("", text[1..], ',');
    assert Split(text, ',')[1..] == Split(text[1..], ',');
  }

  lemma FirstEntry<T>(parse: string -> Option<T>, text: string)
    requires parse("").None?
    ensures
      var k := IndexOf(text, ',');
      var rest := if k < |text| then text[k + 1..] else "";
      Entries(parse, text) == Found(parse(text[..k])) + Entries(parse, rest)
  {
    var k := IndexOf(text, ',');
    if k < |text| {
      assert Split(text, ',')[1..] == Split(text[k + 1..], ',');
    } else {
      assert text[..k] == text;
      SplitField("", "", ',');
      assert Split(text, ',') == [text] && Split("", ',') == [""];
      assert Collect(parse, [""]) == [] && Collect(parse, [text]) == Found(parse(text)) + [];
    }
  }

  // ----- The format, independently of how it is read -----

  /** A route is an address, a slash and a prefix length, and nothing else is. */
  lemma ParseRouteExactly(entry: string, r: Route)
    ensures ParseRoute(entry) == Some(r) <==>
      exists address, length ::
        && '/' !in address && entry == address + "/" + length
        && InetPton(address) == Some(r.network) && ParsePrefix(length) == Some(r.prefix)
  {
    var slash := IndexOf(entry, '/');
    if slash < |entry| {
      assert entry == entry[..slash] + "/" + entry[slash + 1..];
    }
    if address, length :|
      && '/' !in address && entry == address + "/" + length
      && InetPton(address) == Some(r.network) && ParsePrefix(length) == Some(r.prefix)
    {
      SplitsAtSlash(address, length);
    }
  }

  lemma SplitsAtSlash(address: string, length: string)
    requires '/' !in address
    ensures
      var entry := address + "/" + length;
      && IndexOf(entry, '/') == |address| < |entry|
      && entry[..|address|] == address && entry[|address| + 1..] == length
  {
    var entry := address + "/" + length;
    assert forall i :: 0 <= i < |address| ==> entry[i] == address[i] && address[i] in address;
    IndexOfIs(entry, '/', |address|);
  }

  predicate AllSpaces(s: string) {
    forall i :: 0 <= i < |s| ==> s[i] in [' ', '\t', '\n', '\U{b}', '\U{c}', '\r']
  }

  /** The number that a sign and digits stand for. */
  function Signed(sign: string, digits: string): int
    requires AllDigits(digits)
  {
    if sign == "-" then -(Value(digits) as int) else Value(digits)
  }

  /** White space, a sign or none, and digits to the end. */
  predicate Numeral(s: string, spaces: string, sign: string, digits: string) {
    && s == spaces + sign + digits
    && AllSpaces(spaces) && sign in {"", "+", "-"} && digits != "" && AllDigits(digits)
  }

  lemma {:induction false} NumeralIsRead(s: string, spaces: string, sign: string, digits: string)
    requires Numeral(s, spaces, sign, digits)
    ensures UnboundedInt(s) == Some(Signed(sign, digits))
    decreases |spaces|
  {
    if spaces == "" {
      assert s == sign + digits;
      assert IsDigit(digits[0]) && s[|sign|..] == digits;
    } else {
      assert s[0] == spaces[0] && s[1..] == spaces[1..] + sign + digits;
      NumeralIsRead(s[1..], spaces[1..], sign, digits);
    }
  }

  lemma {:induction false} ReadIsNumeral(s: string) returns (spaces: string, sign: string, digits: string)
    requires UnboundedInt(s).Some?
    ensures Numeral(s, spaces, sign, digits)
    decreases |s|
  {
    if s != "" && IsSpace(s[0]) {
      spaces, sign, digits := ReadIsNumeral(s[1..]);
      spaces := [s[0]] + spaces;
      assert s == [s[0]] + s[1..] == spaces + sign + digits;
    } else {
      spaces, sign, digits := "", s[..SignLength(s)], s[SignLength(s)..];
      assert s == spaces + sign + digits;
      assert sign == "" || sign == [s[0]];
    }
  }

  /** A prefix length is a numeral of value 0 to 32, with white space and a sign before it allowed. */
  lemma ParsePrefixExactly(s: string, n: nat)
    ensures ParsePrefix(s) == Some(n) <==>
      n <= 32 && exists spaces, sign, digits :: Numeral(s, spaces, sign, digits) && Signed(sign, digits) == n
  {
    if UnboundedInt(s).Some? {
      var spaces, sign, digits := ReadIsNumeral(s);
      NumeralIsRead(s, spaces, sign, digits);
    }
    if spaces, sign, digits :| Numeral(s, spaces, sign, digits) && Signed(sign, digits) == n {
      NumeralIsRead(s, spaces, sign, digits);
    }
  }

  /** strtol gives the number itself, or the nearest that 64 bits hold. */
  lemma StrtolExactly(s: string, spaces: string, sign: string, digits: string)
    requires Numeral(s, spaces, sign, digits)
    ensures
      var v := Signed(sign, digits);
      && Strtol(s).end == |s|
      && (-0x8000_0000_0000_0000 <= v <= 0x7fff_ffff_ffff_ffff ==> Strtol(s).value == v)
      && (v > 0x7fff_ffff_ffff_ffff ==> Strtol(s).value == 0x7fff_ffff_ffff_ffff)
      && (v < -0x8000_0000_0000_0000 ==> Strtol(s).value == -0x8000_0000_0000_0000)
  {
    StrtolReads(s, spaces, sign, digits);
  }

  lemma StrtolReads(s: string, spaces: string, sign: string, digits: string)
    requires Numeral(s, spaces, sign, digits)
    ensures Strtol(s) == Conversion(Saturate(Signed(sign, digits)), |s|)
  {
    var n := |spaces|;
    SignedDigits(sign, digits);
    TailsOf(s, spaces, sign, digits);
    SpacesBefore(s, spaces, sign + digits);
    DigitPrefixIs(digits);
    StrtolAt(s, n, |sign|, digits);
  }

  lemma TailsOf(s: string, spaces: string, sign: string, digits: string)
    requires s == spaces + sign + digits && sign + digits != ""
    ensures s[|spaces|..] == sign + digits && s[|spaces| + |sign|..] == digits
    ensures s == spaces + (sign + digits) && s[|spaces|] == (sign + digits)[0]
  {
  }

  lemma SpacesBefore(s: string, spaces: string, rest: string)
    requires s == spaces + rest && AllSpaces(spaces) && rest != "" && !IsSpace(rest[0])
    ensures SpacePrefix(s) == |spaces|
  {
    assert forall i :: 0 <= i < |spaces| ==> s[i] == spaces[i];
    SpacePrefixIs(s, |spaces|);
  }

  lemma StrtolAt(s: string, n: nat, k: nat, digits: string)
    requires n == SpacePrefix(s) && k == SignLength(s[n..]) && n + k <= |s| && digits == s[n + k..]
    requires digits != "" && AllDigits(digits) && DigitPrefix(digits) == |digits|
    ensures Strtol(s)
      == Conversion(Saturate(if k == 1 && s[n] == '-' then -(Value(digits) as int) else Value(digits)), |s|)
  {
    var start := SpacePrefix(s) + SignLength(s[SpacePrefix(s)..]);
    assert s[start..] == digits && digits[..|digits|] == digits;
    assert start + |digits| == |s|;
  }

  lemma SignedDigits(sign: string, digits: string)
    requires sign in {"", "+", "-"} && digits != "" && AllDigits(digits)
    ensures
      var rest := sign + digits;
      && SignLength(rest) == |sign| && rest[|sign|..] == digits
      && !IsSpace(rest[0])
      && (sign == "-" <==> |sign| == 1 && rest[0] == '-')
  {
    assert IsDigit(digits[0]);
    assert sign == "" || (sign + digits)[0] == sign[0];
  }

  lemma {:induction false} SpacePrefixIs(s: string, n: nat)
    requires n < |s| && !IsSpace(s[n]) && forall i :: 0 <= i < n ==> IsSpace(s[i])
    ensures SpacePrefix(s) == n
    decreases n
  {
    if n == 0 {
    } else {
      SpacePrefixIs(s[1..], n - 1);
    }
  }

  lemma {:induction false} DigitPrefixIs(s: string)
    requires AllDigits(s)
    ensures DigitPrefix(s) == |s|
    decreases |s|
  {
    if s == "" {
    } else {
      DigitPrefixIs(s[1..]);
    }
  }
}
