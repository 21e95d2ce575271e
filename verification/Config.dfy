/** getServerConfig: what the operator takes from the user's server configuration. */
module Configs {
  import opened Documents
  import opened Yamls
  import opened Clusters
  import opened Replicas

  const LDAP := ["general", "ports", "ldap"]
  const LDAPS := ["general", "ports", "ldaps"]
  const LICENSE := ["general", "license", "key"]
  const ADMIN_DN := ["general", "admin", "dn"]
  const ADMIN_PWD := ["general", "admin", "pwd"]
  const SUFFIXES := ["server", "suffixes"]

  /** The conversion of an int to 32 bits, which wraps around. */
  function Int32(n: int): (r: int)
    ensures -0x8000_0000 <= r < 0x8000_0000
    ensures (n - r) % 0x1_0000_0000 == 0
  {
    (n + 0x8000_0000) % 0x1_0000_0000 - 0x8000_0000
  }

  /* ---- what is taken, in terms of the parsed tree ---- */

  function At(y: Yaml, key: seq<string>): Yaml
    requires key != []
  {
    if Lookup(y, key).Some? then Lookup(y, key).value else Nil
  }

  function PortAt(y: Yaml, key: seq<string>, secrets: Secrets): Yaml
    requires key != []
  {
    ResolveEntry(At(y, key), secrets)
  }

  /** The port to use, and whether it is the secure one; None when a port is no number. */
  function Endpoint(y: Yaml, secrets: Secrets): Option<(int, bool)> {
    var ldap, ldaps := PortAt(y, LDAP, secrets), PortAt(y, LDAPS, secrets);
    match ldap
    case Nil => Some((9389, false))
    case Int(p) =>
      if Int32(p) != 0 then Some((Int32(p), false))
      else (match ldaps
            case Nil => Some((9636, true))
            case Int(q) => Some((Int32(q), true))
            case _ => None)
    case _ => None
  }

  predicate IsSuffixEntry(entry: Yaml) {
    entry.AnyMap? && At(entry, ["dn"]).Str?
  }

  function Suffixes(y: Yaml): Option<seq<string>> {
    if y.List? && forall i | 0 <= i < |y.items| :: IsSuffixEntry(y.items[i])
    then Some(seq(|y.items|, i requires 0 <= i < |y.items| => At(y.items[i], ["dn"]).text))
    else None
  }

  function ServerConfigOf(y: Yaml, secrets: Secrets): Option<ServerConfig> {
    var endpoint, license, dn, pwd, suffixes :=
      Endpoint(y, secrets), At(y, LICENSE), At(y, ADMIN_DN), At(y, ADMIN_PWD), Suffixes(At(y, SUFFIXES));
    if endpoint.Some? && license.Str? && (dn.Str? || dn.Nil?) && pwd.Str? && suffixes.Some?
    then Some(ServerConfig(endpoint.value.0, endpoint.value.1, license.text,
                           if dn.Nil? then "cn=root" else dn.text, pwd.text, suffixes.value))
    else None
  }

  /** A value is there, but is no string: the source panics when it comes to it. */
  predicate Misfit(y: Yaml) {
    || (At(y, LICENSE) != Nil && !At(y, LICENSE).Str?)
    || (At(y, ADMIN_DN) != Nil && !At(y, ADMIN_DN).Str?)
    || (At(y, ADMIN_PWD) != Nil && !At(y, ADMIN_PWD).Str?)
    || (At(y, SUFFIXES).List? && exists i | 0 <= i < |At(y, SUFFIXES).items| :: !At(At(y, SUFFIXES).items[i], ["dn"]).Str?)
  }

  /** The port is never 0, except where the user has disabled both. */
  lemma PortIsZeroOnlyIfDisabled(y: Yaml, secrets: Secrets)
    requires Endpoint(y, secrets).Some?
    ensures Endpoint(y, secrets).value.0 == 0
            <==> && PortAt(y, LDAP, secrets).Int? && Int32(PortAt(y, LDAP, secrets).value) == 0
                 && PortAt(y, LDAPS, secrets).Int? && Int32(PortAt(y, LDAPS, secrets).value) == 0
    ensures Endpoint(y, secrets).value.1 <==> PortAt(y, LDAP, secrets).Int? && Int32(PortAt(y, LDAP, secrets).value) == 0
  {
  }

  /** A map of one key, or of two. */
  function Map1(key: string, value: Yaml): Yaml {
    AnyMap(map[Text(key) := value])
  }

  function Map2(key: string, value: Yaml, key2: string, value2: Yaml): Yaml {
    AnyMap(map[Text(key) := value, Text(key2) := value2])
  }

  /** A server's configuration, as a user writes it. */
  function Written(ldap: Yaml, ldaps: Yaml, license: string, dn: Yaml, pwd: string, suffixes: seq<string>): Yaml {
    var admin := Map2("dn", dn, "pwd", Str(pwd));
    var general := AnyMap(map[
      Text("ports") := Map2("ldap", ldap, "ldaps", ldaps), Text("license") := Map1("key", Str(license)), Text("admin") := admin]);
    var list := List(seq(|suffixes|, i requires 0 <= i < |suffixes| => Map1("dn", Str(suffixes[i]))));
    Map2("general", general, "server", Map1("suffixes", list))
  }

  lemma Step(y: Yaml, key: seq<string>)
    requires |key| > 1 && y.AnyMap? && Text(key[0]) in y.entries
    ensures At(y, key) == At(y.entries[Text(key[0])], key[1..])
  {
  }

  /** Two maps deep below the first one. */
  lemma Below(y: Yaml, a: string, b: string, c: string)
    requires y.AnyMap? && Text(a) in y.entries && y.entries[Text(a)].AnyMap? && Text(b) in y.entries[Text(a)].entries
    ensures At(y, [a, b, c]) == At(y.entries[Text(a)].entries[Text(b)], [c])
  {
    assert [a, b, c][1..] == [b, c] && [b, c][1..] == [c];
    Step(y, [a, b, c]);
    Step(y.entries[Text(a)], [b, c]);
  }

  lemma SuffixesFound(suffixes: seq<string>)
    ensures Suffixes(List(seq(|suffixes|, i requires 0 <= i < |suffixes| => Map1("dn", Str(suffixes[i]))))) == Some(suffixes)
  {
    var list := List(seq(|suffixes|, i requires 0 <= i < |suffixes| => Map1("dn", Str(suffixes[i]))));
    forall i | 0 <= i < |suffixes| ensures IsSuffixEntry(list.items[i]) && At(list.items[i], ["dn"]) == Str(suffixes[i]) {
      assert list.items[i] == Map1("dn", Str(suffixes[i]));
    }
    assert Suffixes(list).value == suffixes;
  }

  /** Each value is found where the operator looks for it. */
  lemma WrittenIsFound(ldap: Yaml, ldaps: Yaml, license: string, dn: Yaml, pwd: string, suffixes: seq<string>)
    ensures var y := Written(ldap, ldaps, license, dn, pwd, suffixes);
      && At(y, LDAP) == ldap && At(y, LDAPS) == ldaps && At(y, LICENSE) == Str(license) && At(y, ADMIN_DN) == dn
      && At(y, ADMIN_PWD) == Str(pwd) && Suffixes(At(y, SUFFIXES)) == Some(suffixes)
  {
    hide Suffixes;
    var y := Written(ldap, ldaps, license, dn, pwd, suffixes);
    Below(y, "general", "ports", "ldap");
    Below(y, "general", "ports", "ldaps");
    Below(y, "general", "license", "key");
    Below(y, "general", "admin", "dn");
    Below(y, "general", "admin", "pwd");
    assert SUFFIXES[1..] == ["suffixes"];
    Step(y, SUFFIXES);
    SuffixesFound(suffixes);
  }

  /** The number fits into 32 bits. */
  predicate Fits32(n: int) {
    -0x8000_0000 <= n < 0x8000_0000
  }

  /**
   * The ldap port, 9389 if there is none; if it is 0, the ldaps port, 9636 if there is none. A port which refers to a secret is
   * taken for none if the secret is missing, and is an error if it is there.
   */
  lemma PortsTaken(y: Yaml, secrets: Secrets, name: string, key: string)
    requires name != "" && name[0] != '\n' && '/' !in name[1..] && '\n' !in key
    ensures var reference, missing := Str("secret:" + name + "/" + key), !(name in secrets && key in secrets[name]);
      var ldap, ldaps := At(y, LDAP), At(y, LDAPS);
      && (ldap == Nil || (ldap == reference && missing) ==> Endpoint(y, secrets) == Some((9389, false)))
      && (ldap.Int? && ldap.value != 0 && Fits32(ldap.value) ==> Endpoint(y, secrets) == Some((ldap.value, false)))
      && (ldap == Int(0) && (ldaps == Nil || (ldaps == reference && missing)) ==> Endpoint(y, secrets) == Some((9636, true)))
      && (ldap == Int(0) && ldaps.Int? && Fits32(ldaps.value) ==> Endpoint(y, secrets) == Some((ldaps.value, true)))
      && (!missing && (ldap == reference || (ldap == Int(0) && ldaps == reference)) ==> Endpoint(y, secrets) == None)
  {
    hide At, ResolveEntry;
    ReferencesResolve(name, key, secrets);
  }

  /** What is taken from a configuration which is written out, with the DN cn=root if there is none. */
  lemma WrittenConfig(ldap: Yaml, ldaps: Yaml, license: string, dn: Yaml, pwd: string, suffixes: seq<string>, secrets: Secrets)
    requires dn.Nil? || dn.Str?
    ensures var y := Written(ldap, ldaps, license, dn, pwd, suffixes);
      var endpoint, admin: string := Endpoint(y, secrets), if dn.Nil? then "cn=root" else dn.text;
      && At(y, LDAP) == ldap && At(y, LDAPS) == ldaps
      && ServerConfigOf(y, secrets)
         == if endpoint == None then None
            else Some(ServerConfig(endpoint.value.0, endpoint.value.1, license, admin, pwd, suffixes))
  {
    hide Written, Suffixes, At, ResolveEntry, Endpoint;
    WrittenIsFound(ldap, ldaps, license, dn, pwd, suffixes);
  }

  /* ---- how it is taken, from the converted tree ---- */

  lemma Found(y: Yaml, key: seq<string>)
    requires Parsed(y) && StringKeys(y) && key != []
    ensures Parsed(At(y, key)) && StringKeys(At(y, key))
    ensures GetYamlValue(Convert(y), key) == Convert(At(y, key))
  {
    ConvertPreservesLookup(y, key);
  }

  method GetConfigSuffixes(body: Yaml, ghost y: Yaml) returns (r: Outcome, suffixes: seq<string>)
    requires Parsed(y) && StringKeys(y) && body == Convert(y)
    ensures r.Ok? <==> Suffixes(At(y, SUFFIXES)).Some?
    ensures r.Ok? ==> suffixes == Suffixes(At(y, SUFFIXES)).value
    ensures r.Lost? ==> Misfit(y)
  {
    suffixes := [];
    Found(y, SUFFIXES);
    ghost var list := At(y, SUFFIXES);
    var entries := GetYamlValue(body, SUFFIXES);
    if !entries.List? {
      return Err, [];
    }
    for i := 0 to |entries.items|
      invariant |suffixes| == i
      invariant forall j | 0 <= j < i :: IsSuffixEntry(list.items[j]) && suffixes[j] == At(list.items[j], ["dn"]).text
    {
      var entry := entries.items[i];
      assert entry == Convert(list.items[i]) && Parsed(list.items[i]) && StringKeys(list.items[i]);
      if !entry.StrMap? {
        return Err, suffixes;
      }
      Found(list.items[i], ["dn"]);
      var dn := GetYamlValue(entry, ["dn"]);
      if !dn.Str? {
        return Lost, suffixes;
      }
      suffixes := suffixes + [dn.text];
    }
    return Ok, suffixes;
  }

  /** The ports: ldap unless it is 0, and then ldaps. */
  method SetPort(h: RequestHandle, body: Yaml, ghost y: Yaml, secrets: Secrets) returns (r: Outcome)
    requires Parsed(y) && StringKeys(y) && body == Convert(y)
    modifies h`config
    ensures r == if Endpoint(y, secrets).Some? then Ok else Err
    ensures r.Ok? ==> (h.config.port, h.config.secure) == Endpoint(y, secrets).value
  {
    Found(y, LDAP);
    Found(y, LDAPS);
    h.config := h.config.(port := 9389, secure := false);
    var ldap := ResolveEntry(GetYamlValue(body, LDAP), secrets);
    if ldap != Nil {
      if !ldap.Int? {
        return Err;
      }
      h.config := h.config.(port := Int32(ldap.value));
      if h.config.port == 0 {
        h.config := h.config.(secure := true, port := 9636);
        var ldaps := ResolveEntry(GetYamlValue(body, LDAPS), secrets);
        if ldaps != Nil {
          if !ldaps.Int? {
            return Err;
          }
          h.config := h.config.(port := Int32(ldaps.value));
        }
      }
    }
    return Ok;
  }

  /** Takes the configuration from the tree which was parsed; whatever the outcome, the ports may have been set. */
  method GetServerConfig(h: RequestHandle, y: Yaml, secrets: Secrets) returns (r: Outcome)
    requires Parsed(y)
    modifies h`config
    ensures r.Ok? <==> StringKeys(y) && ServerConfigOf(y, secrets).Some?
    ensures r.Ok? ==> h.config == ServerConfigOf(y, secrets).value
    ensures r.Lost? ==> !StringKeys(y) || Misfit(y)
  {
    var converted := ConvertYaml(y);
    if converted == None {
      return Lost;
    }
    var body := converted.value;
    if !body.StrMap? {
      return Err;
    }
    r := SetPort(h, body, y, secrets);
    if r != Ok {
      return;
    }
    Found(y, LICENSE);
    Found(y, ADMIN_DN);
    Found(y, ADMIN_PWD);
    var licenseKey := GetYamlValue(body, LICENSE);
    if licenseKey == Nil {
      return Err;
    } else if !licenseKey.Str? {
      return Lost;
    }
    h.config := h.config.(licenseKey := licenseKey.text);
    var adminDn := GetYamlValue(body, ADMIN_DN);
    if adminDn == Nil {
      h.config := h.config.(adminDn := "cn=root");
    } else if adminDn.Str? {
      h.config := h.config.(adminDn := adminDn.text);
    } else {
      return Lost;
    }
    var adminPwd := GetYamlValue(body, ADMIN_PWD);
    if adminPwd == Nil {
      return Err;
    } else if !adminPwd.Str? {
      return Lost;
    }
    h.config := h.config.(adminPwd := adminPwd.text);
    var suffixes;
    r, suffixes := GetConfigSuffixes(body, y);
    if r.Ok? {
      h.config := h.config.(suffixes := suffixes);
    }
  }
}
