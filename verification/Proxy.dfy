/** deployProxy: saving the proxy's configuration, and creating or restarting the proxy. */
module ProxyDeployment {
  import opened Names
  import opened Documents
  import opened States
  import opened Clusters
  import opened Yamls
  import opened Jsons
  import opened Configs
  import opened Replicas
  import opened ProxyTexts

  /**
   * The contents of the user's two ConfigMaps and of the secrets they refer to: the trees parsed from the YAML texts,
   * and the conversion of the proxy's YAML text to JSON.
   */
  datatype UserConfig = UserConfig(server: Yaml, proxy: Yaml, proxyJson: string, secrets: Secrets)

  /** The configuration which the operator saves for these replicas. */
  function SavedText(user: UserConfig, directory: string, pvcs: seq<Pvc>, config: ServerConfig): string {
    if '}' in user.proxyJson then ProxyText(user.proxyJson, ReplicaNames(directory, pvcs), config) else ""
  }

  /** Only ConfigMaps and the proxy may have been changed. */
  ghost predicate Aside(s: State, t: State) {
    && t.name == s.name && t.replicaSets == s.replicaSets && t.services == s.services && t.strays == s.strays
    && Still(s, t) && Orphans(t) <= Orphans(s) && (Sound(s) ==> Sound(t))
  }

  lemma AsideLater(s: State, t: State, u: State)
    requires Aside(s, t) && Later(t, u)
    ensures Aside(s, u) && u.configMaps == t.configMaps && u.proxy == t.proxy && u.name == t.name
    ensures ProxyConfig(u) == ProxyConfig(t)
    ensures forall name, value :: Aside(s, Apply(u, PutConfigMap(name, value)))
    ensures forall proxy :: Aside(s, Apply(u, PutProxy(proxy)))
  {
    LaterIsAside(t, u);
    hide Later, Aside, Apply;
    AsideTransitive(s, t, u);
    forall name, value ensures Aside(s, Apply(u, PutConfigMap(name, value))) {
      AsideApplied(s, u, PutConfigMap(name, value));
    }
    forall proxy ensures Aside(s, Apply(u, PutProxy(proxy))) {
      AsideApplied(s, u, PutProxy(proxy));
    }
  }

  lemma LaterIsAside(s: State, t: State)
    requires Later(s, t)
    ensures Aside(s, t) && t.configMaps == s.configMaps && t.proxy == s.proxy && t.name == s.name
  {
  }

  lemma AsideApplied(s: State, t: State, r: Request)
    requires Aside(s, t) && (r.PutConfigMap? || r.PutProxy?)
    ensures Aside(s, Apply(t, r))
  {
  }

  lemma AsideReflexive(s: State)
    ensures Aside(s, s)
  {
    EnvEffectReflexive(s);
  }

  /** The user's configuration of the proxy can be used. */
  predicate ProxyUsable(user: UserConfig) {
    user.proxy.AnyMap? && StringKeys(user.proxy) && Endpoint(user.proxy, user.secrets).Some?
  }

  /** The base configuration of the proxy, and the proxy's port. */
  method GetProxyJson(user: UserConfig) returns (r: Outcome, json: string, port: int)
    requires Parsed(user.proxy)
    ensures r.Ok? <==> ProxyUsable(user)
    ensures r.Ok? ==> json == user.proxyJson
    ensures r.Ok? ==> port == Endpoint(user.proxy, user.secrets).value.0
    ensures r.Lost? <==> !StringKeys(user.proxy)
  {
    json, port := user.proxyJson, 9389;
    var converted := ConvertYaml(user.proxy);
    if converted == None {
      return Lost, json, port;
    }
    var body := converted.value;
    if !body.StrMap? {
      return Err, json, port;
    }
    Found(user.proxy, LDAP);
    Found(user.proxy, LDAPS);
    var ldap := ResolveEntry(GetYamlValue(body, LDAP), user.secrets);
    if ldap != Nil {
      if !ldap.Int? {
        return Err, json, port;
      }
      port := Int32(ldap.value);
      if port == 0 {
        port := 9636;
        var ldaps := ResolveEntry(GetYamlValue(body, LDAPS), user.secrets);
        if ldaps != Nil {
          if !ldaps.Int? {
            return Err, json, port;
          }
          port := Int32(ldaps.value);
        }
      }
    }
    r := Ok;
  }

  /** Saves the configuration unless it is already there; updated says which. */
  method SaveProxyConfig(api: Cluster, yaml: string) returns (r: Outcome, updated: bool)
    requires api.Valid() && api.MaySave(ProxyName(api.directory), yaml)
    modifies api`state, api`trace
    ensures api.Valid() && Onward(old(api.SoFar()), api.SoFar()) && !r.Lost? && Told(old(api.SoFar()), api.SoFar(), r, Silent)
    ensures Aside(old(api.state), api.state) && api.state.proxy == old(api.state.proxy)
    ensures r.Ok? ==> (updated <==> ProxyConfig(old(api.state)) != Some(yaml))
    ensures r.Ok? ==> api.state.configMaps == old(api.state.configMaps)[ProxyName(api.directory) := yaml]
    ensures !r.Ok? ==>
      api.state.configMaps in {old(api.state.configMaps), old(api.state.configMaps)[ProxyName(api.directory) := yaml]}
  {
    hide Cluster.Valid, Onward, Later, Aside, ProxyName, Told;
    ghost var s, p0 := api.state, api.SoFar();
    api.NameIsDirectory();
    AsideReflexive(s);
    var name := ProxyName(api.directory);
    updated := false;
    var found, saved := api.GetConfigMap(name);
    ghost var t, p1 := api.state, api.SoFar();
    AsideLater(s, s, t);
    if !found {
      return Err, updated;
    }
    if saved == Some(yaml) {
      assert s.configMaps[name := yaml] == s.configMaps;
      return Ok, updated;
    }
    updated := true;
    var ok;
    ghost var seen;
    ok, seen := CreateConfigMap(api, name, yaml);
    OnwardTransitive(p0, p1, api.SoFar());
    AsideLater(s, t, seen);
    return if ok then Ok else Err, updated;
  }

  /**
   * What a successful createProxyDeployment leaves: a deployment on that port, restarted only if there was one and the
   * configuration was updated. The service is created with the deployment only, and keeps its port.
   */
  function Redeployed(p: Proxy, port: int, updated: bool): Proxy {
    if p.deployment.Some? then Proxy(Some(port), p.service, p.restarts + if updated then 1 else 0)
    else Proxy(Some(port), Some(port), p.restarts)
  }

  /**
   * Afterwards there is a service exactly when there was one or no deployment; and it has the proxy's port exactly when it
   * is a new one, or was created under that port.
   */
  lemma ProxyServiceExactly(p: Proxy, port: int, updated: bool)
    requires p.deployment.None? ==> p.service.None?
    ensures var q := Redeployed(p, port, updated);
      && (q.service.Some? <==> p.service.Some? || p.deployment.None?)
      && (q.service == q.deployment <==> p.deployment.None? || p.service == Some(port))
      && (p.deployment.Some? ==> q.service == p.service)
  {
  }

  /** Updates an existing deployment if it differs, and restarts it if its configuration was updated. */
  method RestartProxy(api: Cluster, olddep: Proxy, port: int, differs: bool, updated: bool) returns (r: Outcome)
    requires api.Valid() && olddep.deployment.Some? && (!differs ==> olddep.deployment == Some(port))
    requires api.state.proxy == olddep
    modifies api`state, api`trace
    ensures api.Valid() && Onward(old(api.SoFar()), api.SoFar()) && !r.Lost? && Told(old(api.SoFar()), api.SoFar(), r, Silent)
    ensures Aside(old(api.state), api.state) && api.state.configMaps == old(api.state.configMaps)
    ensures r.Ok? ==> api.state.proxy == Redeployed(olddep, port, updated)
  {
    hide Cluster.Valid, Onward, Later, Aside, Told;
    ghost var s, p0 := api.state, api.SoFar();
    AsideReflexive(s);
    OnwardReflexive(p0);
    var dep := olddep.(deployment := Some(port));
    r := Ok;
    var ok;
    ghost var seen;
    if differs {
      ok, seen := api.PutProxy(dep);
      r := if ok then Ok else Err;
      AsideLater(s, s, seen);
    }
    ghost var t, p1 := api.state, api.SoFar();
    if r.Ok? && updated {
      ok, seen := api.PutProxy(dep.(restarts := dep.restarts + 1));
      r := if ok then Ok else Err;
      AsideLater(s, t, seen);
      OnwardTransitive(p0, p1, api.SoFar());
    }
  }

  /** Creates the deployment, and then the service. */
  method StartProxy(api: Cluster, olddep: Proxy, port: int) returns (r: Outcome)
    requires api.Valid() && olddep.deployment.None? && api.state.proxy == olddep
    modifies api`state, api`trace
    ensures api.Valid() && Onward(old(api.SoFar()), api.SoFar()) && !r.Lost? && Told(old(api.SoFar()), api.SoFar(), r, Silent)
    ensures Aside(old(api.state), api.state) && api.state.configMaps == old(api.state.configMaps)
    ensures r.Ok? ==> api.state.proxy == Redeployed(olddep, port, false) && olddep.service.None?
  {
    hide Cluster.Valid, Onward, Later, Aside, Told;
    ghost var s, p0 := api.state, api.SoFar();
    AsideReflexive(s);
    r := Err;
    var ok;
    ghost var seen;
    ok, seen := api.PutProxy(olddep.(deployment := Some(port)));
    AsideLater(s, s, seen);
    if !ok {
      return;
    }
    ghost var t, p1 := api.state, api.SoFar();
    ok, seen := api.CreateProxyService(port);
    r := if ok then Ok else Err;
    AsideLater(s, t, seen);
    OnwardTransitive(p0, p1, api.SoFar());
  }

  /** Creates the proxy, or updates and restarts it; how else than in its port an existing deployment differs is not modelled. */
  method CreateProxyDeployment(api: Cluster, port: int, updated: bool) returns (r: Outcome)
    requires api.Valid()
    modifies api`state, api`trace
    ensures api.Valid() && Onward(old(api.SoFar()), api.SoFar()) && !r.Lost? && Told(old(api.SoFar()), api.SoFar(), r, Silent)
    ensures Aside(old(api.state), api.state) && api.state.configMaps == old(api.state.configMaps)
    ensures r.Ok? ==> api.state.proxy == Redeployed(old(api.state.proxy), port, updated)
    ensures r.Ok? && old(api.state.proxy).deployment.None? ==> old(api.state.proxy).service.None?
  {
    hide Cluster.Valid, Onward, Later, Aside, Redeployed, Told;
    ghost var s, p0 := api.state, api.SoFar();
    AsideReflexive(s);
    var fetched, olddep := api.GetProxy();
    ghost var t, p1 := api.state, api.SoFar();
    AsideLater(s, s, t);
    if !fetched {
      return Err;
    }
    var different: bool := *;
    if olddep.deployment.Some? {
      r := RestartProxy(api, olddep, port, different || olddep.deployment != Some(port), updated);
    } else {
      r := StartProxy(api, olddep, port);
      NotRestarted(olddep, port, updated);
    }
    OnwardTransitive(p0, p1, api.SoFar());
    AsideTransitive(s, t, api.state);
  }

  lemma NotRestarted(p: Proxy, port: int, updated: bool)
    requires p.deployment.None?
    ensures Redeployed(p, port, updated) == Redeployed(p, port, false)
  {
  }

  lemma AsideTransitive(s: State, t: State, u: State)
    requires Aside(s, t) && Aside(t, u)
    ensures Aside(s, u)
  {
    StillTransitive(s, t, u);
  }

  /** The port which the user's configuration gives the proxy. */
  function ProxyPort(user: UserConfig): int {
    var endpoint := Endpoint(user.proxy, user.secrets);
    if endpoint.Some? then endpoint.value.0 else 0
  }

  /** The outcome of a successful deployProxy. */
  ghost predicate ProxyDeployed(s: State, t: State, text: string, port: int) {
    && Aside(s, t)
    && t.configMaps == s.configMaps[ProxyName(s.name) := text]
    && t.proxy == Redeployed(s.proxy, port, ProxyConfig(s) != Some(text))
    && (s.proxy.deployment.None? ==> s.proxy.service.None?)
  }

  /**
   * A procedure ends as the trace tells, or else because the user's configuration cannot be used; keyed: nothing in it makes
   * the source panic.
   */
  ghost predicate Explained(a: Past, b: Past, r: Outcome, usable: bool, keyed: bool, x: Scope) {
    && (r.Ok? ==> usable)
    && (Told(a, b, r, x) || (Told(a, b, Ok, x) && !r.Ok? && !usable && (r.Lost? ==> !keyed)))
  }

  lemma IsDeployed(s: State, t: State, u: State, text: string, port: int)
    requires Aside(s, t) && t.configMaps == s.configMaps[ProxyName(s.name) := text] && t.proxy == s.proxy
    requires Aside(t, u) && u.configMaps == t.configMaps
    requires u.proxy == Redeployed(t.proxy, port, ProxyConfig(s) != Some(text))
    requires t.proxy.deployment.None? ==> t.proxy.service.None?
    ensures ProxyDeployed(s, u, text, port)
  {
    hide Redeployed;
    AsideTransitive(s, t, u);
  }

  lemma Saved(s: State, t: State, text: string)
    requires t.name == s.name && t.configMaps == s.configMaps[ProxyName(s.name) := text]
    ensures ProxyConfig(t) == Some(text)
  {
  }

  /**
   * Saves the configuration of the document's replicas, and deploys the proxy; from the time it is saved on, the watch is
   * on it and on these replicas.
   */
  method DeployProxy(api: Cluster, h: RequestHandle, user: UserConfig) returns (r: Outcome, ghost saved: bool)
    requires api.Valid() && Parsed(user.proxy)
    requires api.MaySave(ProxyName(api.directory), SavedText(user, api.directory, h.directory.pvcs, h.config))
    modifies api`state, api`trace, api`watch, api`windows
    ensures api.Valid() && Onward(old(api.SoFar()), api.SoFar()) && Aside(old(api.state), api.state)
    ensures Explained(old(api.SoFar()), api.SoFar(), r, ProxyUsable(user), StringKeys(user.proxy), Silent)
    ensures r.Ok? ==> saved
    ensures saved ==> api.watch.from < |api.trace| && api.trace[api.watch.from].state.proxy == old(api.state.proxy)
    ensures r.Ok? ==> ProxyDeployed(old(api.state), api.state, SavedText(user, api.directory, h.directory.pvcs, h.config),
                                    ProxyPort(user))
    ensures if saved
            then && api.watch == Watch(api.watch.from, old(api.watch.keep) * SetOf(h.directory.pvcs), old(api.watch.pinned),
                                       Some({Some(SavedText(user, api.directory, h.directory.pvcs, h.config))}))
                 && old(|api.trace|) - 1 <= api.watch.from
                 && api.windows == old(api.windows) + [Window(old(api.watch), api.watch.from + 1)]
            else api.watch == old(api.watch) && api.windows == old(api.windows)
  {
    hide Cluster.Valid, Onward, Aside, SavedText, ProxyDeployed, Redeployed, ProxyName, ProxyConfig, SetOf, ProxyPort, ProxyText,
         Told, ProxyUsable;
    saved := false;
    ghost var s, p0, text := api.state, api.SoFar(), SavedText(user, api.directory, h.directory.pvcs, h.config);
    api.NameIsDirectory();
    OnwardReflexive(p0);
    AsideReflexive(s);
    var fetched := api.Fetch();
    ghost var f := api.SoFar();
    if !fetched {
      return Err, saved;
    }
    var json, port;
    r, json, port := GetProxyJson(user);
    if r != Ok {
      return;
    }
    UsablePort(user);
    PortIs(user, port);
    TextIs(user, api.directory, h.directory.pvcs, h.config);
    var yaml := ConstructProxyYaml(api.directory, json, h.directory.pvcs, h.config);
    var converted: bool := *;
    if !converted {
      AnErrorIs(NotConverted);
      api.GiveUp(NotConverted);
      OnwardTransitive(p0, f, api.SoFar());
      return Err, saved;
    }
    var updated;
    r, updated := SaveProxyConfig(api, yaml);
    OnwardTransitive(p0, f, api.SoFar());
    if r != Ok {
      return;
    }
    ghost var t, p1 := api.state, api.SoFar();
    OnwardFacts(p0, p1);
    api.LastState();
    AsideNames(s, t);
    Saved(s, t, text);
    api.Narrow(api.watch.keep * SetOf(h.directory.pvcs), Some(text));
    saved := true;
    r := CreateProxyDeployment(api, port, updated);
    OnwardTransitive(p0, p1, api.SoFar());
    OnwardFacts(p1, api.SoFar());
    AsideTransitive(s, t, api.state);
    if r.Ok? {
      IsDeployed(s, t, api.state, text, port);
    }
  }

  lemma UsablePort(user: UserConfig)
    requires ProxyUsable(user)
    ensures Endpoint(user.proxy, user.secrets).Some?
  {
  }

  lemma PortIs(user: UserConfig, port: int)
    requires Endpoint(user.proxy, user.secrets).Some? && port == Endpoint(user.proxy, user.secrets).value.0
    ensures ProxyPort(user) == port
  {
  }

  lemma TextIs(user: UserConfig, directory: string, pvcs: seq<Pvc>, config: ServerConfig)
    ensures SavedText(user, directory, pvcs, config)
            == if '}' in user.proxyJson then ProxyText(user.proxyJson, ReplicaNames(directory, pvcs), config) else ""
  {
  }

  lemma AsideNames(s: State, t: State)
    requires Aside(s, t)
    ensures t.name == s.name
  {
  }

  /**
   * The saved configuration, as a JSON value: the user's members and one more, which reads as one group of exactly the replicas
   * of the document in their order, each at its scheme, the name of its service and the configured port, and a split for each
   * suffix. So a target has the port of its service exactly when that was created under the configured port.
   */
  lemma SavedConfigIsSound(user: UserConfig, s: State, pvcs: seq<Pvc>, config: ServerConfig, base: seq<Member>)
    requires Denotes(user.proxyJson, Obj(base)) && base != [] && AllPlain(ReplicaNames(s.name, pvcs), config)
    ensures exists m: Member ::
      && Denotes(SavedText(user, s.name, pvcs, config), Obj(base + [m]))
      && m.name == "proxy" && IsProxy(m.value, ReplicaNames(s.name, pvcs), config)
    ensures forall k | 0 <= k < |pvcs| && pvcs[k] in s.services ::
      var target := ReadTarget(Target(ReplicaName(s.name, pvcs[k]), config));
      && target.Some? && target.value.host == ReplicaName(s.name, pvcs[k])
      && (target.value.port == s.services[pvcs[k]].port <==> s.services[pvcs[k]].port == config.port)
  {
    SurgeryIsInsertion(user.proxyJson, base, ReplicaNames(s.name, pvcs), config);
    ProxyReads(ReplicaNames(s.name, pvcs), config);
    assert Denotes(SavedText(user, s.name, pvcs, config), Obj(base + [ProxyMember(ReplicaNames(s.name, pvcs), config)]));
    forall k | 0 <= k < |pvcs| && pvcs[k] in s.services ensures ReadTarget(Target(ReplicaName(s.name, pvcs[k]), config))
      == Some(Address(if config.secure then "ldaps" else "ldap", ReplicaName(s.name, pvcs[k]), config.port)) {
      TargetReads(ReplicaName(s.name, pvcs[k]), config);
    }
    hide *;
  }
}
