/**
 * The crosswire command line as a printer and a left-to-right reader: what the service prints
 * (service/src/config.rs) determines every setting it was printed from.
 *
 * The reader knows each flag's arity and nothing else; a value is taken as it stands, even if
 * it is spelled like a flag.
 */
module CommandArguments {
  import opened Options
  import opened Text

  datatype Auth =
    | Saml(port: Option<string>)
    | Cookie
    | Password(user: Option<string>, password: Option<string>, otp: Option<string>)

  datatype Settings = Settings(
    dev: string, plugin: string, port: Option<string>, realm: Option<string>, pins: seq<string>,
    caFile: Option<string>, insecure: bool, auth: Auth, host: string)

  /** The flags that take exactly one value. */
  datatype Field =
    | SetRoutes | SetDns | SetIp | PppdIfname | PppdPlugin | Port | Realm | TrustedCert | CaFile
    | Username | PasswordField | Otp

  function Spelling(f: Field): string {
    match f
    case SetRoutes => "--set-routes"
    case SetDns => "--set-dns"
    case SetIp => "--set-ip"
    case PppdIfname => "--pppd-ifname"
    case PppdPlugin => "--pppd-plugin"
    case Port => "--port"
    case Realm => "--realm"
    case TrustedCert => "--trusted-cert"
    case CaFile => "--ca-file"
    case Username => "--username"
    case PasswordField => "--password"
    case Otp => "--otp"
  }

  // ----- The printer -----

  function Pair(f: Field, value: string): seq<string> {
    [Spelling(f), value]
  }

  function Optional(f: Field, value: Option<string>): seq<string> {
    if value.Some? then Pair(f, value.value) else []
  }

  function PinArguments(pins: seq<string>): seq<string> {
    if pins == [] then [] else Pair(TrustedCert, pins[0]) + PinArguments(pins[1..])
  }

  function FromHost(s: Settings): seq<string> {
    ["--", s.host]
  }

  function FromOtp(s: Settings): seq<string>
    requires s.auth.Password?
  {
    Optional(Otp, s.auth.otp) + FromHost(s)
  }

  function FromPassword(s: Settings): seq<string>
    requires s.auth.Password?
  {
    Optional(PasswordField, s.auth.password) + FromOtp(s)
  }

  function FromAuth(s: Settings): seq<string> {
    match s.auth
    case Saml(_) => ["--saml-login"] + FromHost(s)
    case Cookie => ["--cookie-on-stdin"] + FromHost(s)
    case Password(user, _, _) => Optional(Username, user) + FromPassword(s)
  }

  function FromInsecure(s: Settings): seq<string> {
    (if s.insecure then ["--insecure-ssl"] else []) + FromAuth(s)
  }

  function FromCaFile(s: Settings): seq<string> {
    Optional(CaFile, s.caFile) + FromInsecure(s)
  }

  function FromPins(s: Settings): seq<string> {
    PinArguments(s.pins) + FromCaFile(s)
  }

  function FromRealm(s: Settings): seq<string> {
    Optional(Realm, s.realm) + FromPins(s)
  }

  function FromPort(s: Settings): seq<string> {
    Optional(Port, s.port) + FromRealm(s)
  }

  function FromPlugin(s: Settings): seq<string> {
    Pair(PppdPlugin, s.plugin) + FromPort(s)
  }

  function FromDev(s: Settings): seq<string> {
    Pair(PppdIfname, s.dev) + FromPlugin(s)
  }

  function FromSetIp(s: Settings): seq<string> {
    Pair(SetIp, "false") + FromDev(s)
  }

  function FromSetDns(s: Settings): seq<string> {
    Pair(SetDns, "false") + FromSetIp(s)
  }

  function Arguments(s: Settings): seq<string> {
    Pair(SetRoutes, "false") + FromSetDns(s)
  }

  // ----- The reader -----

  datatype Token = Valued(field: Field) | InsecureSsl | SamlLogin | CookieOnStdin | Separator | Unknown | Positional

  predicate LooksLikeFlag(s: string) {
    s != "" && s[0] == '-'
  }

  function Classify(s: string): Token {
    if !LooksLikeFlag(s) then Positional
    else if s == "--" then Separator
    else if s == "--saml-login" then SamlLogin
    else if s == "--cookie-on-stdin" then CookieOnStdin
    else if s == "--insecure-ssl" then InsecureSsl
    else if s == Spelling(SetRoutes) then Valued(SetRoutes)
    else if s == Spelling(SetDns) then Valued(SetDns)
    else if s == Spelling(SetIp) then Valued(SetIp)
    else if s == Spelling(PppdIfname) then Valued(PppdIfname)
    else if s == Spelling(PppdPlugin) then Valued(PppdPlugin)
    else if s == Spelling(Port) then Valued(Port)
    else if s == Spelling(Realm) then Valued(Realm)
    else if s == Spelling(TrustedCert) then Valued(TrustedCert)
    else if s == Spelling(CaFile) then Valued(CaFile)
    else if s == Spelling(Username) then Valued(Username)
    else if s == Spelling(PasswordField) then Valued(PasswordField)
    else if s == Spelling(Otp) then Valued(Otp)
    else Unknown
  }

  /** What has been read so far. */
  datatype Reading = Reading(
    routes: Option<string>, dns: Option<string>, ip: Option<string>, dev: Option<string>, plugin: Option<string>,
    port: Option<string>, realm: Option<string>, caFile: Option<string>, user: Option<string>,
    password: Option<string>, otp: Option<string>, pins: seq<string>, insecure: bool,
    saml: Option<Option<string>>, cookie: bool, host: Option<string>)

  const NOTHING_READ :=
    Reading(None, None, None, None, None, None, None, None, None, None, None, [], false, None, false, None)

  /** A flag that takes one value may come once, except --trusted-cert. */
  predicate Accepts(r: Reading, f: Field) {
    match f
    case SetRoutes => r.routes.None?
    case SetDns => r.dns.None?
    case SetIp => r.ip.None?
    case PppdIfname => r.dev.None?
    case PppdPlugin => r.plugin.None?
    case Port => r.port.None?
    case Realm => r.realm.None?
    case TrustedCert => true
    case CaFile => r.caFile.None?
    case Username => r.user.None?
    case PasswordField => r.password.None?
    case Otp => r.otp.None?
  }

  function Put(r: Reading, f: Field, value: Option<string>): Reading {
    match f
    case SetRoutes => r.(routes := value)
    case SetDns => r.(dns := value)
    case SetIp => r.(ip := value)
    case PppdIfname => r.(dev := value)
    case PppdPlugin => r.(plugin := value)
    case Port => r.(port := value)
    case Realm => r.(realm := value)
    case TrustedCert => r.(pins := r.pins + if value.Some? then [value.value] else [])
    case CaFile => r.(caFile := value)
    case Username => r.(user := value)
    case PasswordField => r.(password := value)
    case Otp => r.(otp := value)
  }

  /** Read the arguments one flag at a time; `--saml-login` takes an optional port. */
  function Read(args: seq<string>, r: Reading): Option<Reading>
    decreases |args|
  {
    if args == [] then Some(r)
    else
      match Classify(args[0])
      case Valued(f) =>
        if |args| == 1 || !Accepts(r, f) then None else Read(args[2..], Put(r, f, Some(args[1])))
      case InsecureSsl => Read(args[1..], r.(insecure := true))
      case CookieOnStdin => Read(args[1..], r.(cookie := true))
      case SamlLogin =>
        if |args| > 1 && !LooksLikeFlag(args[1]) then Read(args[2..], r.(saml := Some(Some(args[1]))))
        else Read(args[1..], r.(saml := Some(None)))
      case Separator =>
        if |args| == 2 && r.host.None? then Some(r.(host := Some(args[1]))) else None
      case Positional =>
        if r.host.None? then Read(args[1..], r.(host := Some(args[0]))) else None
      case Unknown => None
  }

  function Interpret(r: Reading): Option<Settings> {
    if r.host.None? || r.dev.None? || r.plugin.None? then None
    else
      var auth :=
        if r.saml.Some? then Saml(r.saml.value)
        else if r.cookie then Cookie
        else Password(r.user, r.password, r.otp);
      Some(Settings(r.dev.value, r.plugin.value, r.port, r.realm, r.pins, r.caFile, r.insecure, auth, r.host.value))
  }

  function Decode(args: seq<string>): Option<Settings> {
    var r := Read(args, NOTHING_READ);
    if r.None? then None else Interpret(r.value)
  }

  // ----- The reader undoes the printer -----

  lemma SpellingsAreDistinct(f: Field)
    ensures Classify(Spelling(f)) == Valued(f)
  {
  }

  lemma ReadPair(f: Field, value: string, rest: seq<string>, r: Reading)
    requires Accepts(r, f)
    ensures Read(Pair(f, value) + rest, r) == Read(rest, Put(r, f, Some(value)))
  {
    SpellingsAreDistinct(f);
    assert (Pair(f, value) + rest)[2..] == rest;
  }

  /** Putting nothing into a field that holds nothing changes nothing. */
  lemma PutNone(r: Reading, f: Field)
    requires Accepts(r, f)
    ensures Put(r, f, None) == r
  {
    assert r.pins + [] == r.pins;
  }

  lemma ReadOptional(f: Field, value: Option<string>, rest: seq<string>, r: Reading)
    requires Accepts(r, f)
    ensures Read(Optional(f, value) + rest, r) == Read(rest, Put(r, f, value))
  {
    if value.Some? {
      ReadPair(f, value.value, rest, r);
    } else {
      assert [] + rest == rest;
      PutNone(r, f);
    }
  }

  function WithPins(r: Reading, pins: seq<string>): Reading {
    r.(pins := r.pins + pins)
  }

  lemma ReadPin(pin: string, rest: seq<string>, r: Reading)
    ensures Read(Pair(TrustedCert, pin) + rest, r) == Read(rest, WithPins(r, [pin]))
  {
    ReadPair(TrustedCert, pin, rest, r);
  }

  lemma WithMorePins(r: Reading, pins: seq<string>)
    ensures pins == [] ==> WithPins(r, pins) == r
    ensures pins != [] ==> WithPins(WithPins(r, [pins[0]]), pins[1..]) == WithPins(r, pins)
  {
    if pins != [] {
      assert pins == [pins[0]] + pins[1..];
    }
  }

  lemma {:induction false} ReadPins(pins: seq<string>, rest: seq<string>, r: Reading)
    ensures Read(PinArguments(pins) + rest, r) == Read(rest, WithPins(r, pins))
    decreases |pins|
  {
    WithMorePins(r, pins);
    if pins == [] {
      assert [] + rest == rest;
    } else {
      ConcatAssociates(Pair(TrustedCert, pins[0]), PinArguments(pins[1..]), rest);
      ReadPin(pins[0], PinArguments(pins[1..]) + rest, r);
      ReadPins(pins[1..], rest, WithPins(r, [pins[0]]));
    }
  }

  /** The service never prints a port after --saml-login. */
  predicate Printable(s: Settings) {
    s.auth.Saml? ==> s.auth.port.None?
  }

  lemma ReadHost(s: Settings, r: Reading)
    requires r.host.None?
    ensures Read(FromHost(s), r) == Some(r.(host := Some(s.host)))
  {
  }

  function AfterAuth(s: Settings, r: Reading): Reading {
    match s.auth
    case Saml(_) => r.(saml := Some(None))
    case Cookie => r.(cookie := true)
    case Password(user, password, otp) => r.(user := user, password := password, otp := otp)
  }

  lemma ReadCredentials(s: Settings, r: Reading)
    requires s.auth.Password? && r.host.None? && r.user.None? && r.password.None? && r.otp.None?
    ensures Read(FromAuth(s), r) == Read(FromHost(s), AfterAuth(s, r))
  {
    ReadOptional(Username, s.auth.user, FromPassword(s), r);
    var r1 := r.(user := s.auth.user);
    ReadOptional(PasswordField, s.auth.password, FromOtp(s), r1);
    ReadOptional(Otp, s.auth.otp, FromHost(s), r1.(password := s.auth.password));
  }

  lemma ReadAuth(s: Settings, r: Reading)
    requires r.host.None? && r.user.None? && r.password.None? && r.otp.None?
    ensures Read(FromAuth(s), r) == Some(AfterAuth(s, r).(host := Some(s.host)))
  {
    ReadHost(s, AfterAuth(s, r));
    if s.auth.Password? {
      ReadCredentials(s, r);
    } else {
      assert FromAuth(s)[1..] == FromHost(s);
    }
  }

  lemma ReadInsecure(s: Settings, r: Reading)
    ensures Read(FromInsecure(s), r) == Read(FromAuth(s), r.(insecure := r.insecure || s.insecure))
  {
    if s.insecure {
      assert FromInsecure(s)[1..] == FromAuth(s);
    } else {
      assert FromInsecure(s) == FromAuth(s);
    }
  }

  function AfterDelegation(s: Settings): Reading {
    NOTHING_READ.(routes := Some("false"), dns := Some("false"), ip := Some("false"),
                  dev := Some(s.dev), plugin := Some(s.plugin))
  }

  lemma ReadDelegation(s: Settings)
    ensures Read(Arguments(s), NOTHING_READ) == Read(FromPort(s), AfterDelegation(s))
  {
    var r1 := NOTHING_READ.(routes := Some("false"));
    var r2 := r1.(dns := Some("false"));
    var r3 := r2.(ip := Some("false"));
    ReadPair(SetRoutes, "false", FromSetDns(s), NOTHING_READ);
    ReadPair(SetDns, "false", FromSetIp(s), r1);
    ReadPair(SetIp, "false", FromDev(s), r2);
    ReadPair(PppdIfname, s.dev, FromPlugin(s), r3);
    ReadPair(PppdPlugin, s.plugin, FromPort(s), r3.(dev := Some(s.dev)));
  }

  function AfterGateway(s: Settings, r: Reading): Reading {
    r.(port := s.port, realm := s.realm, pins := s.pins, caFile := s.caFile, insecure := s.insecure)
  }

  lemma ReadGateway(s: Settings, r: Reading)
    requires r.port.None? && r.realm.None? && r.caFile.None? && r.pins == [] && !r.insecure
    ensures Read(FromPort(s), r) == Read(FromAuth(s), AfterGateway(s, r))
  {
    var r1 := r.(port := s.port);
    var r2 := r1.(realm := s.realm);
    assert r2.pins + s.pins == s.pins;
    var r3 := r2.(pins := s.pins);
    ReadOptional(Port, s.port, FromRealm(s), r);
    ReadOptional(Realm, s.realm, FromPins(s), r1);
    ReadPins(s.pins, FromCaFile(s), r2);
    ReadOptional(CaFile, s.caFile, FromInsecure(s), r3);
    ReadInsecure(s, r3.(caFile := s.caFile));
  }

  lemma ReadArguments(s: Settings)
    ensures Read(Arguments(s), NOTHING_READ)
      == Some(AfterAuth(s, AfterGateway(s, AfterDelegation(s))).(host := Some(s.host)))
  {
    ReadDelegation(s);
    ReadGateway(s, AfterDelegation(s));
    ReadAuth(s, AfterGateway(s, AfterDelegation(s)));
  }

  lemma InterpretReading(s: Settings)
    requires Printable(s)
    ensures Interpret(AfterAuth(s, AfterGateway(s, AfterDelegation(s))).(host := Some(s.host))) == Some(s)
  {
  }

  /** Reading the printed arguments gives back the settings they were printed from. */
  lemma DecodeArguments(s: Settings)
    requires Printable(s)
    ensures Decode(Arguments(s)) == Some(s)
  {
    ReadArguments(s);
    InterpretReading(s);
  }

  /** Two settings print alike if and only if they are the same. */
  lemma ArgumentsAreUnique(s: Settings, t: Settings)
    requires Printable(s) && Printable(t)
    ensures Arguments(s) == Arguments(t) <==> s == t
  {
    DecodeArguments(s);
    DecodeArguments(t);
  }

  // ----- The arguments, word for word -----

  /** A flag and its value, if there is a value. */
  function Flagged(flag: string, value: Option<string>): seq<string> {
    if value.Some? then [flag, value.value] else []
  }

  /** The flags of each kind of authentication. */
  function Credentials(auth: Auth): seq<string> {
    match auth
    case Saml(_) => ["--saml-login"]
    case Cookie => ["--cookie-on-stdin"]
    case Password(user, password, otp) =>
      Flagged("--username", user) + Flagged("--password", password) + Flagged("--otp", otp)
  }

  /** What crosswire is told about its delegated networking. */
  function Delegation(dev: string, plugin: string): seq<string> {
    ["--set-routes", "false", "--set-dns", "false", "--set-ip", "false", "--pppd-ifname", dev, "--pppd-plugin", plugin]
  }

  function Gateway(s: Settings): seq<string> {
    Flagged("--port", s.port) + Flagged("--realm", s.realm) + PinArguments(s.pins)
    + Flagged("--ca-file", s.caFile) + (if s.insecure then ["--insecure-ssl"] else [])
  }

  /** The argument list of every connection, flag by flag. */
  lemma ArgumentsAre(s: Settings)
    ensures Arguments(s) == Delegation(s.dev, s.plugin) + Gateway(s) + Credentials(s.auth) + ["--", s.host]
  {
    DelegationFirst(s);
    GatewayNext(s);
    CredentialsNext(s);
    ConcatAssociates(Gateway(s), Credentials(s.auth), ["--", s.host]);
    ConcatAssociates(Delegation(s.dev, s.plugin), Gateway(s) + Credentials(s.auth), ["--", s.host]);
    ConcatAssociates(Delegation(s.dev, s.plugin), Gateway(s), Credentials(s.auth));
  }

  lemma DelegationFirst(s: Settings)
    ensures Arguments(s) == Delegation(s.dev, s.plugin) + FromPort(s)
  {
  }

  lemma GatewayNext(s: Settings)
    ensures FromPort(s) == Gateway(s) + FromAuth(s)
  {
    assert Optional(Port, s.port) == Flagged("--port", s.port);
    assert Optional(Realm, s.realm) == Flagged("--realm", s.realm);
    assert Optional(CaFile, s.caFile) == Flagged("--ca-file", s.caFile);
  }

  lemma CredentialsNext(s: Settings)
    ensures FromAuth(s) == Credentials(s.auth) + ["--", s.host]
  {
  }

  /** Every pin has a flag of its own, in order. */
  lemma {:induction false} PinArgumentsAre(pins: seq<string>, k: nat)
    requires k < |pins|
    ensures |PinArguments(pins)| == 2 * |pins|
    ensures PinArguments(pins)[2 * k] == "--trusted-cert" && PinArguments(pins)[2 * k + 1] == pins[k]
    decreases |pins|
  {
    if |pins| == 1 {
      assert PinArguments(pins[1..]) == [];
    } else {
      PinArgumentsAre(pins[1..], if k == 0 then 0 else k - 1);
    }
  }
}
