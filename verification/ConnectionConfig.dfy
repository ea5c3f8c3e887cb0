/**
 * Mapping a NetworkManager connection to a crosswire launch (`map_connection` in
 * service/src/config.rs), and what re-pinning a certificate does to the next launch.
 */
module ConnectionConfig {
  import opened Options
  import opened Text
  import opened CertTrust
  import opened CommandArguments

  datatype OwnedValue = Str(text: string) | Strings(entries: map<string, string>) | Other

  type Setting = map<string, OwnedValue>

  type Connection = map<string, Setting>

  type Data = map<string, string>

  datatype Launch = Launch(
    args: seq<string>, stdin: Option<string>, missingSecret: Option<string>, gateway: Option<string>,
    uuid: Option<string>)

  function Lookup<V>(m: map<string, V>, key: string): Option<V> {
    if key in m then Some(m[key]) else None
  }

  function OrElse(v: Option<string>, default: string): string {
    if v.Some? then v.value else default
  }

  /** A nested string map of the vpn setting; empty if absent or of another type. */
  function NestedStrings(vpn: Setting, field: string): Data {
    if field in vpn && vpn[field].Strings? then vpn[field].entries else map[]
  }

  /** vpn.data and vpn.secrets in one lookup; secrets win. */
  function Merged(conn: Connection): Data {
    var vpn := if "vpn" in conn then conn["vpn"] else map[];
    NestedStrings(vpn, "data") + NestedStrings(vpn, "secrets")
  }

  // ----- The pin list -----

  predicate IsPinSeparator(c: char) {
    c == ',' || c == ' '
  }

  function PinLength(s: string): (k: nat)
    ensures k <= |s|
    ensures forall i :: 0 <= i < k ==> !IsPinSeparator(s[i])
    ensures k < |s| ==> IsPinSeparator(s[k])
  {
    if s == "" || IsPinSeparator(s[0]) then 0 else 1 + PinLength(s[1..])
  }

  function PinPieces(s: string): seq<string> {
    var k := PinLength(s);
    if k == |s| then [s] else [s[..k]] + PinPieces(s[k + 1..])
  }

  function NonEmpty(pieces: seq<string>): seq<string> {
    if pieces == [] then []
    else (if pieces[0] != "" then [pieces[0]] else []) + NonEmpty(pieces[1..])
  }

  function SplitPins(s: string): seq<string> {
    NonEmpty(PinPieces(s))
  }

  lemma {:induction false} NonEmptyAppend(pieces: seq<string>, p: string)
    ensures NonEmpty(pieces + [p]) == NonEmpty(pieces) + if p != "" then [p] else []
    decreases |pieces|
  {
    if pieces == [] {
      assert NonEmpty([p]) == (if p != "" then [p] else []) + NonEmpty([]);
    } else {
      NonEmptyAppend(pieces[1..], p);
      assert (pieces + [p])[1..] == pieces[1..] + [p];
      ConcatAssociates(if pieces[0] != "" then [pieces[0]] else [], NonEmpty(pieces[1..]), if p != "" then [p] else []);
    }
  }

  lemma {:induction false} PinArgumentsAppend(pins: seq<string>, p: string)
    ensures PinArguments(pins + [p]) == PinArguments(pins) + Pair(TrustedCert, p)
    decreases |pins|
  {
    if pins == [] {
      assert PinArguments([p]) == Pair(TrustedCert, p) + PinArguments([]);
    } else {
      PinArgumentsAppend(pins[1..], p);
      assert (pins + [p])[1..] == pins[1..] + [p];
      ConcatAssociates(Pair(TrustedCert, pins[0]), PinArguments(pins[1..]), Pair(TrustedCert, p));
    }
  }

  // ----- What the connection asks for -----

  function AuthType(data: Data): string {
    OrElse(Lookup(data, "auth-type"), "password")
  }

  function AuthOf(data: Data): Auth {
    if AuthType(data) == "saml" then Saml(None)
    else if AuthType(data) == "cookie" then Cookie
    else Password(Lookup(data, "user"), Lookup(data, "password"), Lookup(data, "otp"))
  }

  function PinsOf(data: Data): seq<string> {
    if "trusted-cert" in data then SplitPins(data["trusted-cert"]) else []
  }

  function SettingsOf(data: Data, plugin: string, dev: string): Settings {
    Settings(
      dev, plugin, Lookup(data, "port"), Lookup(data, "realm"), PinsOf(data), Lookup(data, "ca-file"),
      Lookup(data, "insecure-ssl") == Some("yes"), AuthOf(data), OrElse(Lookup(data, "gateway"), ""))
  }

  /** The secret NetworkManager must still supply. */
  function MissingSecret(data: Data): Option<string> {
    if AuthType(data) == "saml" then None
    else if AuthType(data) == "cookie" && "cookie" !in data then Some("cookie")
    else if "password" !in data && "cookie" !in data then Some("password")
    else None
  }

  /** Push the pins one by one, as the loop over the split value does. */
  method PushPins(args: seq<string>, cert: string) returns (r: seq<string>)
    ensures r == args + PinArguments(SplitPins(cert))
  {
    r := args;
    var pieces := PinPieces(cert);
    for i := 0 to |pieces|
      invariant r == args + PinArguments(NonEmpty(pieces[..i]))
    {
      NonEmptyAppend(pieces[..i], pieces[i]);
      assert pieces[..i + 1] == pieces[..i] + [pieces[i]];
      if pieces[i] != "" {
        PinArgumentsAppend(NonEmpty(pieces[..i]), pieces[i]);
        r := r + ["--trusted-cert"] + [pieces[i]];
      } else {
        assert NonEmpty(pieces[..i]) + [] == NonEmpty(pieces[..i]);
      }
    }
    assert pieces[..|pieces|] == pieces;
  }

  /** Push a flag with its value, if there is a value. */
  method PushOptional(args: seq<string>, f: Field, value: Option<string>) returns (r: seq<string>)
    ensures r == args + Optional(f, value)
  {
    r := args;
    if value.Some? {
      r := r + [Spelling(f)] + [value.value];
    }
  }

  /** NetworkManager owns the address, routes and DNS. */
  method PushDelegation(plugin: string, dev: string, ghost s: Settings) returns (args: seq<string>)
    requires s.plugin == plugin && s.dev == dev
    ensures args + FromPort(s) == Arguments(s)
  {
    args := [];
    args := args + ["--set-routes"] + ["false"] + ["--set-dns"] + ["false"] + ["--set-ip"] + ["false"];
    args := args + ["--pppd-ifname"] + [dev] + ["--pppd-plugin"] + [plugin];
  }

  /** The port, realm, pins and CA file. */
  method PushGateway(before: seq<string>, data: Data, ghost s: Settings) returns (args: seq<string>)
    requires s.port == Lookup(data, "port") && s.realm == Lookup(data, "realm")
    requires s.pins == PinsOf(data) && s.caFile == Lookup(data, "ca-file")
    ensures args + FromInsecure(s) == before + FromPort(s)
  {
    args := PushOptional(before, Port, Lookup(data, "port"));
    ConcatAssociates(before, Optional(Port, s.port), FromRealm(s));
    ghost var b := args;
    args := PushOptional(args, Realm, Lookup(data, "realm"));
    ConcatAssociates(b, Optional(Realm, s.realm), FromPins(s));
    ghost var c := args;
    if "trusted-cert" in data {
      args := PushPins(args, data["trusted-cert"]);
    }
    assert args == c + PinArguments(s.pins);
    ConcatAssociates(c, PinArguments(s.pins), FromCaFile(s));
    ghost var d := args;
    args := PushOptional(args, CaFile, Lookup(data, "ca-file"));
    ConcatAssociates(d, Optional(CaFile, s.caFile), FromInsecure(s));
  }

  method PushCredentials(before: seq<string>, data: Data, ghost s: Settings) returns (args: seq<string>)
    requires s.auth == Password(Lookup(data, "user"), Lookup(data, "password"), Lookup(data, "otp"))
    ensures args + FromHost(s) == before + FromAuth(s)
  {
    args := PushOptional(before, Username, Lookup(data, "user"));
    ConcatAssociates(before, Optional(Username, s.auth.user), FromPassword(s));
    ghost var a := args;
    args := PushOptional(args, PasswordField, Lookup(data, "password"));
    ConcatAssociates(a, Optional(PasswordField, s.auth.password), FromOtp(s));
    ghost var b := args;
    args := PushOptional(args, Otp, Lookup(data, "otp"));
    ConcatAssociates(b, Optional(Otp, s.auth.otp), FromHost(s));
  }

  /** The authentication flags; a session cookie goes to stdin instead. */
  method PushAuth(before: seq<string>, data: Data, ghost s: Settings)
    returns (args: seq<string>, stdin: Option<string>)
    requires s.auth == AuthOf(data)
    ensures args + FromHost(s) == before + FromAuth(s)
    ensures stdin == if s.auth.Cookie? then Lookup(data, "cookie") else None
  {
    stdin := None;
    if AuthType(data) == "saml" {
      args := before + ["--saml-login"];
    } else if AuthType(data) == "cookie" {
      args := before + ["--cookie-on-stdin"];
      stdin := Lookup(data, "cookie");
    } else {
      args := PushCredentials(before, data, s);
    }
  }

  method PushInsecure(before: seq<string>, data: Data, ghost s: Settings) returns (args: seq<string>)
    requires s.insecure <==> Lookup(data, "insecure-ssl") == Some("yes")
    ensures args + FromAuth(s) == before + FromInsecure(s)
  {
    args := before;
    if Lookup(data, "insecure-ssl") == Some("yes") {
      args := args + ["--insecure-ssl"];
    }
  }

  method PushArguments(data: Data, plugin: string, dev: string) returns (args: seq<string>, stdin: Option<string>)
    ensures
      var s := SettingsOf(data, plugin, dev);
      && args == Arguments(s) && Decode(args) == Some(s)
      && |args| >= 2 && args[|args| - 2..] == ["--", s.host]
      && stdin == if s.auth.Cookie? then Lookup(data, "cookie") else None
  {
    ghost var s := SettingsOf(data, plugin, dev);
    args := PushDelegation(plugin, dev, s);
    args := PushGateway(args, data, s);
    args := PushInsecure(args, data, s);
    args, stdin := PushAuth(args, data, s);
    args := args + ["--"] + [OrElse(Lookup(data, "gateway"), "")];
    DecodeArguments(s);
  }

  function UuidOf(conn: Connection): Option<string> {
    if "connection" in conn && "uuid" in conn["connection"] then
      var v := conn["connection"]["uuid"];
      if v.Str? && v.text != "" then Some(v.text) else None
    else None
  }

  /**
   * Map a connection to a launch. Unless only probing for secrets, the arguments decode to
   * exactly the connection's settings, and the host is the one item after the final separator.
   */
  method MapConnection(conn: Connection, plugin: string, dev: string, probe: bool) returns (l: Launch)
    ensures l.missingSecret == MissingSecret(Merged(conn)) && l.uuid == UuidOf(conn)
    ensures OrElse(l.gateway, "") == OrElse(Lookup(Merged(conn), "gateway"), "") && l.gateway != Some("")
    ensures probe ==> l.args == [] && l.stdin == None
    ensures !probe ==>
      var s := SettingsOf(Merged(conn), plugin, dev);
      && Decode(l.args) == Some(s) && l.args == Arguments(s)
      && |l.args| >= 2 && l.args[|l.args| - 2..] == ["--", s.host]
      && l.stdin == if s.auth.Cookie? then Lookup(Merged(conn), "cookie") else None
  {
    var data := Merged(conn);
    var host := OrElse(Lookup(data, "gateway"), "");
    l := Launch([], None, MissingSecret(data), if host != "" then Some(host) else None, UuidOf(conn));
    if probe {
      return;
    }
    var args, stdin := PushArguments(data, plugin, dev);
    l := l.(args := args, stdin := stdin);
  }

  // ----- Re-pinning -----

  lemma SinglePin(s: string)
    requires s != "" && forall i :: 0 <= i < |s| ==> !IsPinSeparator(s[i])
    ensures SplitPins(s) == [s]
  {
    assert PinPieces(s) == [s];
    assert NonEmpty([s]) == [s] + NonEmpty([]);
  }

  lemma {:induction false} FoundDigestIsDigest(pieces: seq<string>)
    ensures FirstDigest(pieces).Some? ==> IsDigest(FirstDigest(pieces).value)
    decreases |pieces|
  {
    if pieces == [] {
    } else {
      FoundDigestIsDigest(pieces[1..]);
    }
  }

  lemma VerdictIsDigest(lines: seq<string>)
    ensures Verdict(lines).Some? ==> IsDigest(Verdict(lines).value)
  {
    VerdictCharacterised(lines);
    if i :| FirstBearing(lines, i) && Verdict(lines) == ExtractSha256(lines[i]) {
      FoundDigestIsDigest(HexPieces(lines[i]));
    }
  }

  /**
   * The digest recovered from a rejected run, stored as trusted-cert in vpn.data, is the one
   * pin of the next launch exactly when vpn.secrets does not override it with other pins.
   */
  lemma RepinTakesEffect(lines: seq<string>, data: Data, secrets: Data, plugin: string, dev: string)
    requires Verdict(lines).Some?
    ensures
      var digest := Verdict(lines).value;
      var next := SettingsOf(data["trusted-cert" := digest] + secrets, plugin, dev);
      && (next.pins == [digest] <==>
            "trusted-cert" !in secrets || SplitPins(secrets["trusted-cert"]) == [digest])
      && ("trusted-cert" !in secrets ==>
            next == SettingsOf(data + secrets, plugin, dev).(pins := [digest]))
  {
    var digest := Verdict(lines).value;
    VerdictIsDigest(lines);
    SinglePin(digest);
    OtherKeysUntouched(data, secrets, digest);
  }

  lemma OtherKeysUntouched(data: Data, secrets: Data, digest: string)
    ensures forall key :: key != "trusted-cert" ==>
      Lookup(data["trusted-cert" := digest] + secrets, key) == Lookup(data + secrets, key)
  {
  }

  // ----- The settings, key by key -----

  /** A key of the vpn setting is looked up in its secrets first and then in its data. */
  lemma MergedByKey(conn: Connection, key: string)
    ensures
      var vpn := if "vpn" in conn then conn["vpn"] else map[];
      Lookup(Merged(conn), key) ==
        if "secrets" in vpn && vpn["secrets"].Strings? && key in vpn["secrets"].entries
        then Some(vpn["secrets"].entries[key])
        else if "data" in vpn && vpn["data"].Strings? && key in vpn["data"].entries
        then Some(vpn["data"].entries[key])
        else None
  {
  }

  /** The kind of authentication and its credentials. */
  lemma AuthByKeys(data: Data, plugin: string, dev: string)
    ensures
      var auth := SettingsOf(data, plugin, dev).auth;
      && (auth.Saml? <==> Lookup(data, "auth-type") == Some("saml"))
      && (auth.Cookie? <==> Lookup(data, "auth-type") == Some("cookie"))
      && (auth.Saml? ==> auth.port == None)
      && (auth.Password? ==>
            && auth.user == Lookup(data, "user")
            && auth.password == Lookup(data, "password")
            && auth.otp == Lookup(data, "otp"))
  {
  }

  lemma SettingsByKeys(data: Data, plugin: string, dev: string)
    ensures
      var s := SettingsOf(data, plugin, dev);
      && s.dev == dev && s.plugin == plugin
      && s.port == Lookup(data, "port")
      && s.realm == Lookup(data, "realm")
      && s.caFile == Lookup(data, "ca-file")
      && (s.insecure <==> Lookup(data, "insecure-ssl") == Some("yes"))
      && s.host == (if "gateway" in data then data["gateway"] else "")
      && s.pins == (if "trusted-cert" in data then SplitPins(data["trusted-cert"]) else [])
  {
  }

  /** Which secret is asked for: none for SAML, else the cookie or the password when missing. */
  lemma MissingByKeys(data: Data)
    ensures
      var kind, cookie, password := Lookup(data, "auth-type"), Lookup(data, "cookie"), Lookup(data, "password");
      && (MissingSecret(data) == Some("cookie") <==> kind == Some("cookie") && cookie.None?)
      && (MissingSecret(data) == Some("password") <==>
            kind != Some("saml") && kind != Some("cookie") && cookie.None? && password.None?)
      && (MissingSecret(data) == None <==>
            || kind == Some("saml")
            || (kind == Some("cookie") && cookie.Some?)
            || (kind != Some("cookie") && (cookie.Some? || password.Some?)))
  {
  }

  lemma UuidByKeys(conn: Connection, uuid: string)
    ensures UuidOf(conn) == Some(uuid) <==>
      uuid != "" && "connection" in conn && "uuid" in conn["connection"] && conn["connection"]["uuid"] == Str(uuid)
  {
  }

  /** Pins are separated by commas and spaces, and empty ones are dropped. */
  lemma {:induction false} SplitPinsConcat(a: string, sep: char, b: string)
    requires sep == ',' || sep == ' '
    ensures SplitPins(a + [sep] + b) == SplitPins(a) + SplitPins(b)
    decreases |a|
  {
    var k, s := PinLength(a), a + [sep] + b;
    PinLengthIs(s, k);
    if k == |a| {
      assert s[..k] == a && s[k + 1..] == b;
      assert PinPieces(s) == [a] + PinPieces(b) && PinPieces(a) == [a];
      NonEmptyCons(a, PinPieces(b));
      NonEmptyCons(a, []);
    } else {
      var tail := a[k + 1..];
      SplitPinsConcat(tail, sep, b);
      assert s[..k] == a[..k] && s[k + 1..] == tail + [sep] + b;
      NonEmptyCons(a[..k], PinPieces(tail + [sep] + b));
      NonEmptyCons(a[..k], PinPieces(tail));
      ConcatAssociates(if a[..k] != "" then [a[..k]] else [], SplitPins(tail), SplitPins(b));
    }
  }

  lemma PinLengthIs(s: string, k: nat)
    requires k < |s| && IsPinSeparator(s[k]) && forall i :: 0 <= i < k ==> !IsPinSeparator(s[i])
    ensures PinLength(s) == k
  {
  }

  lemma NonEmptyCons(p: string, pieces: seq<string>)
    ensures NonEmpty([p] + pieces) == (if p != "" then [p] else []) + NonEmpty(pieces)
    ensures [p] + [] == [p]
  {
    assert ([p] + pieces)[1..] == pieces;
  }

  /** A text without commas and spaces is one pin, or none if it is empty. */
  lemma OnePin(s: string)
    requires ',' !in s && ' ' !in s
    ensures SplitPins(s) == if s == "" then [] else [s]
  {
    assert forall i :: 0 <= i < |s| ==> s[i] in s;
    assert PinPieces(s) == [s];
    NonEmptyCons(s, []);
  }
}
