/**
 * The loop from a rejected certificate to the next launch: the watcher's prompt
 * (service/src/supervisor.rs), the dialog that stores the digest and re-activates
 * (properties/nm-crosswire-cert-dialog.c), and the arguments of the launch that follows.
 */
module Repin {
  import opened Options
  import opened CertTrust
  import opened CommandArguments
  import opened ConnectionConfig
  import opened RetryLoop

  function VpnOf(conn: Connection): Setting {
    if "vpn" in conn then conn["vpn"] else map[]
  }

  /** The data item that the dialog replaces; a vpn setting is there or the dialog fails. */
  function StorePin(conn: Connection, digest: string): Connection
    requires "vpn" in conn
  {
    conn["vpn" := conn["vpn"]["data" := Strings(NestedStrings(conn["vpn"], "data")["trusted-cert" := digest])]]
  }

  function SecretsOf(conn: Connection): Data {
    NestedStrings(VpnOf(conn), "secrets")
  }

  lemma MergedAfterStore(conn: Connection, digest: string)
    requires "vpn" in conn
    ensures Merged(StorePin(conn, digest))
      == NestedStrings(conn["vpn"], "data")["trusted-cert" := digest] + SecretsOf(conn)
    ensures Merged(conn) == NestedStrings(conn["vpn"], "data") + SecretsOf(conn)
  {
  }

  /** Storing a pin does not change which secret is missing. */
  lemma SameMissingSecret(conn: Connection, digest: string)
    requires "vpn" in conn
    ensures MissingSecret(Merged(StorePin(conn, digest))) == MissingSecret(Merged(conn))
  {
    MergedAfterStore(conn, digest);
    OtherKeysUntouched(NestedStrings(conn["vpn"], "data"), SecretsOf(conn), digest);
    assert AuthType(Merged(StorePin(conn, digest))) == AuthType(Merged(conn));
  }

  /**
   * Watch a session; if it prompts and the user accepts, store the digest and connect again: the
   * service launches unless a secret is missing. The digest is the one the last run's own output
   * bears, and the new arguments carry it as their one pin exactly when the secrets do not put
   * other pins in its place; without a trusted-cert among the secrets nothing else changes.
   */
  method AcceptAndReconnect(env: nat -> Run, start: real, conn: Connection, plugin: string, dev: string)
    returns (launches: seq<real>, ending: Ending, next: Option<Launch>)
    requires (forall k: nat :: Plausible(env(k))) && "vpn" in conn
    ensures |launches| >= 1 && ending == EndingOf(env(|launches| - 1), |launches| - 1)
    ensures next.Some? <==> ending.Failed? && ending.prompted.Some? && MissingSecret(Merged(conn)).None?
    ensures next.Some? ==>
      var digest := ending.prompted.value;
      var secrets := SecretsOf(conn);
      var settings := Decode(next.value.args);
      && Verdict(env(|launches| - 1).lines) == Some(digest)
      && settings.Some?
      && (settings.value.pins == [digest] <==>
            "trusted-cert" !in secrets || SplitPins(secrets["trusted-cert"]) == [digest])
      && ("trusted-cert" !in secrets ==>
            settings.value == SettingsOf(Merged(conn), plugin, dev).(pins := [digest]))
  {
    var report;
    launches, ending, report := RetryLoop.Watch(env, start);
    next := None;
    if ending.Failed? && ending.prompted.Some? {
      var digest := ending.prompted.value;
      var launch := MapConnection(StorePin(conn, digest), plugin, dev, false);
      SameMissingSecret(conn, digest);
      if launch.missingSecret.None? {
        next := Some(launch);
        MergedAfterStore(conn, digest);
        RepinTakesEffect(
          env(|launches| - 1).lines, NestedStrings(conn["vpn"], "data"), SecretsOf(conn), plugin, dev);
      }
    }
  }

  const OVERRIDING: Connection := map["vpn" := map[
    "data" := Strings(map["gateway" := "gw", "auth-type" := "saml"]),
    "secrets" := Strings(map["trusted-cert" := "old"])]]

  lemma OverridingPins(digest: string)
    ensures PinsOf(Merged(StorePin(OVERRIDING, digest))) == ["old"]
    ensures MissingSecret(Merged(OVERRIDING)) == MissingSecret(Merged(StorePin(OVERRIDING, digest))) == None
  {
    MergedAfterStore(OVERRIDING, digest);
    SameMissingSecret(OVERRIDING, digest);
    SinglePin("old");
  }

  /**
   * Whatever digest the user accepts, this connection, which lacks no secret and so is launched,
   * goes on pinning the old one.
   */
  lemma SecretOverridesPin(digest: string, plugin: string, dev: string)
    requires IsDigest(digest)
    ensures MissingSecret(Merged(OVERRIDING)) == MissingSecret(Merged(StorePin(OVERRIDING, digest))) == None
    ensures
      var settings := Decode(Arguments(SettingsOf(Merged(StorePin(OVERRIDING, digest)), plugin, dev)));
      settings.Some? && settings.value.pins == ["old"] != [digest]
  {
    OverridingPins(digest);
    DecodeArguments(SettingsOf(Merged(StorePin(OVERRIDING, digest)), plugin, dev));
  }
}
