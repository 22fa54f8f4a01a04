/** `registry_auth_azure` and `cluster_auth_azure`: a service-principal login
    from an auth file, then an ACR login or fetching AKS credentials. Neither
    touches the process environment. */
module Azure {
  import opened Common
  import opened Paths
  import opened Decrypt
  import opened Scope

  /** The service principal an auth file describes. */
  datatype Principal = Principal(appId: string, tenant: string, password: string)

  /** Reading the auth file with the YAML loader (no decryption, and no parse
      error is caught) and looking up its three keys in order. */
  function ReadPrincipal(path: string, w: World): (r: Result<Principal>)
    ensures path !in w.files ==> r == Err(FileNotFound(path))
    ensures r.Err? ==> !r.error.ToolFailed?
    ensures r.Ok? <==> path in w.files && w.files[path].Parsed? && w.files[path].doc.Mapping?
                       && {"appId", "tenant", "password"} <= w.files[path].doc.fields.Keys
    ensures r.Ok? ==> var f := w.files[path].doc.fields;
                      r.value == Principal(f["appId"], f["tenant"], f["password"])
  {
    if path !in w.files then Err(FileNotFound(path))
    else
      match w.files[path]
      case Malformed => Err(Unparseable(path))
      case LoaderError => Err(Unparseable(path))
      case Parsed(NoContainer) => Err(NotSubscriptable)
      case Parsed(Mapping(f)) =>
        if "appId" !in f then Err(KeyMissing("appId"))
        else if "tenant" !in f then Err(KeyMissing("tenant"))
        else if "password" !in f then Err(KeyMissing("password"))
        else Ok(Principal(f["appId"], f["tenant"], f["password"]))
  }

  /** `az login --service-principal` with the auth file's credentials. */
  function Login(deployment: string, authFile: string, w: World): (r: Steps)
    ensures StepsStop(r, w.tools)
    ensures var p := ReadPrincipal(SecretPath(deployment, authFile), w);
            r.failure.None? ==> p.Ok? && r.cmds == [AzLogin(p.value.appId, p.value.tenant, p.value.password)]
    ensures var p := ReadPrincipal(SecretPath(deployment, authFile), w);
            p.Err? ==> r.cmds == [] && r.failure == Some(p.error)
    ensures var p := ReadPrincipal(SecretPath(deployment, authFile), w);
            r.failure.None? <==> p.Ok? && w.tools(AzLogin(p.value.appId, p.value.tenant, p.value.password))
  {
    match ReadPrincipal(SecretPath(deployment, authFile), w)
    case Err(e) => Steps([], Some(e))
    case Ok(p) =>
      var login := AzLogin(p.appId, p.tenant, p.password);
      assert StepsStop(Steps([], None), w.tools);
      AndThenStops(Steps([], None), login, w.tools);
      AndThen(Steps([], None), login, w.tools)
  }

  /** `registry_auth_azure`. */
  function RegistryAuth(deployment: string, resourceGroup: string, registry: string, authFile: string,
                        w: World, st: State, body: Body): (o: Outcome)
    ensures Restores(o, st, {}, body) && o.st.docker == st.docker
    ensures StopsAtFailure(o, w.tools)
    ensures var p := ReadPrincipal(SecretPath(deployment, authFile), w);
            o.entered.Some? ==>
              p.Ok? && o.cmds == [AzLogin(p.value.appId, p.value.tenant, p.value.password), AzAcrLogin(registry)]
    ensures var p := ReadPrincipal(SecretPath(deployment, authFile), w);
            o.entered.Some? <==>
              p.Ok? && w.tools(AzLogin(p.value.appId, p.value.tenant, p.value.password)) && w.tools(AzAcrLogin(registry))
  {
    var login := Login(deployment, authFile, w);
    ThenYield(st, login, AzAcrLogin(registry), body, w.tools);
    Yield(st, AndThen(login, AzAcrLogin(registry), w.tools), body)
  }

  /** `cluster_auth_azure`. */
  function ClusterAuth(deployment: string, resourceGroup: string, cluster: string, authFile: string,
                       w: World, st: State, body: Body): (o: Outcome)
    ensures Restores(o, st, {}, body) && o.st.docker == st.docker
    ensures StopsAtFailure(o, w.tools)
    ensures var p := ReadPrincipal(SecretPath(deployment, authFile), w);
            o.entered.Some? ==>
              && p.Ok?
              && o.cmds == [AzLogin(p.value.appId, p.value.tenant, p.value.password),
                            AzAksGetCredentials(cluster, resourceGroup)]
    ensures var p := ReadPrincipal(SecretPath(deployment, authFile), w);
            o.entered.Some? <==>
              && p.Ok?
              && w.tools(AzLogin(p.value.appId, p.value.tenant, p.value.password))
              && w.tools(AzAksGetCredentials(cluster, resourceGroup))
  {
    var fetch := AzAksGetCredentials(cluster, resourceGroup);
    var login := Login(deployment, authFile, w);
    ThenYield(st, login, fetch, body, w.tools);
    Yield(st, AndThen(login, fetch, w.tools), body)
  }
}
