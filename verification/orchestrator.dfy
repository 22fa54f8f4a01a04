/** `registry_auth` and `cluster_auth`: select a strategy by provider tag,
    bind its parameter bag, and for clusters redirect `KUBECONFIG` to a
    temporary file around the whole dispatch. */
module Orchestrator {
  import opened Common
  import opened Environ
  import opened Config
  import opened Scope
  import Aws
  import Gcloud
  import Azure

  const KubeconfigVar: string := "KUBECONFIG"

  datatype Provider = GcloudProvider | AwsProvider | AzureProvider

  /** The provider tag comparison chain of both entry points. */
  function SelectProvider(tag: Option<string>): (r: Result<Provider>)
    ensures r == Ok(GcloudProvider) <==> tag == Some("gcloud")
    ensures r == Ok(AwsProvider) <==> tag == Some("aws")
    ensures r == Ok(AzureProvider) <==> tag == Some("azure")
    ensures r.Err? ==> r.error == UnknownProvider(tag)
    ensures r.Ok? ==> tag == Some(BagKey(r.value))
  {
    if tag == Some("gcloud") then Ok(GcloudProvider)
    else if tag == Some("aws") then Ok(AwsProvider)
    else if tag == Some("azure") then Ok(AzureProvider)
    else Err(UnknownProvider(tag))
  }

  /** The key of a provider's parameter bag in its section. */
  function BagKey(p: Provider): string
  {
    match p
    case GcloudProvider => "gcloud"
    case AwsProvider => "aws"
    case AzureProvider => "azure"
  }

  // The keyword parameters of each strategy, after `deployment`.
  const GcloudRegistryParams: set<string> := {"project", "service_key"}
  const AwsRegistryParams: set<string> := {"project", "zone"}
  const AzureRegistryParams: set<string> := {"resource_group", "registry", "auth_file"}
  const GcloudClusterParams: set<string> := {"project", "cluster", "zone", "service_key"}
  const AwsClusterParams: set<string> := {"project", "cluster", "zone"}
  const AzureClusterParams: set<string> := {"resource_group", "cluster", "auth_file"}
  /** The AWS parameters that default to None. */
  const AwsOptionalParams: set<string> := {"service_key", "role_arn"}

  /** The section names `tag` as its provider and holds a bag for it that
      binds to the strategy's keyword parameters. */
  predicate Selects(section: Section, tag: string, required: set<string>, optional: set<string>)
  {
    && section.provider == Some(tag)
    && tag in section.bags
    && Binds(section.bags[tag], required, optional)
  }

  /** No strategy is called: the tag is unknown, its bag is missing, or the
      bag does not bind. */
  predicate NoStrategy(section: Section, gcloud: set<string>, aws: set<string>, azure: set<string>)
  {
    && !Selects(section, "gcloud", gcloud, {})
    && !Selects(section, "aws", aws, AwsOptionalParams)
    && !Selects(section, "azure", azure, {})
  }

  function AwsArgsOf(bag: Bag, cluster: string): Aws.AwsArgs
    requires "project" in bag && "zone" in bag
  {
    Aws.AwsArgs(bag["project"], bag["zone"], cluster, Param(bag, "service_key"), Param(bag, "role_arn"))
  }

  /** The provider branch of `registry_auth`. The ensures are a case table:
      one strategy per tag whose bag binds, and an exception with no effect
      otherwise. Outcomes are compared whole, so a body that calls the wrong
      strategy is rejected by the verifier, in the gcloud case usually by
      running out of resource rather than with a counterexample;
      `GcloudRegistrySelected` states that case on its own. */
  function RegistryDispatch(deployment: string, section: Section, w: World, st: State, body: Body): (o: Outcome)
    ensures Selects(section, "gcloud", GcloudRegistryParams, {}) ==>
              var bag := section.bags["gcloud"];
              o == Gcloud.RegistryAuth(deployment, bag["project"], bag["service_key"], w, st, body)
    ensures Selects(section, "aws", AwsRegistryParams, AwsOptionalParams) ==>
              var bag := section.bags["aws"];
              o == Aws.RegistryAuth(deployment, Aws.AwsArgs(bag["project"], bag["zone"], "", Param(bag, "service_key"),
                                                            Param(bag, "role_arn")), w, st, body)
    ensures Selects(section, "azure", AzureRegistryParams, {}) ==>
              var bag := section.bags["azure"];
              o == Azure.RegistryAuth(deployment, bag["resource_group"], bag["registry"], bag["auth_file"], w, st, body)
    ensures NoStrategy(section, GcloudRegistryParams, AwsRegistryParams, AzureRegistryParams) ==>
              o.entered.None? && o.st == st && o.cmds == [] && o.exit.Raised?
    ensures SelectProvider(section.provider).Err? ==> o == Raise(st, [], UnknownProvider(section.provider))
    ensures SelectProvider(section.provider).Ok? && section.provider.value !in section.bags ==>
              o == Raise(st, [], KeyMissing(section.provider.value))
  {
    match SelectProvider(section.provider)
    case Err(e) => Raise(st, [], e)
    case Ok(p) =>
      if BagKey(p) !in section.bags then Raise(st, [], KeyMissing(BagKey(p)))
      else
        var bag := section.bags[BagKey(p)];
        match p
        case GcloudProvider =>
          if !Binds(bag, GcloudRegistryParams, {}) then Raise(st, [], BadArguments("registry_auth_gcloud"))
          else Gcloud.RegistryAuth(deployment, bag["project"], bag["service_key"], w, st, body)
        case AwsProvider =>
          if !Binds(bag, AwsRegistryParams, AwsOptionalParams) then Raise(st, [], BadArguments("registry_auth_aws"))
          else Aws.RegistryAuth(deployment, AwsArgsOf(bag, ""), w, st, body)
        case AzureProvider =>
          if !Binds(bag, AzureRegistryParams, {}) then Raise(st, [], BadArguments("registry_auth_azure"))
          else Azure.RegistryAuth(deployment, bag["resource_group"], bag["registry"], bag["auth_file"], w, st, body)
  }

  /** The provider branch of `cluster_auth`, inside its `try`, with the same
      case table as `RegistryDispatch`; `GcloudClusterSelected` states the
      gcloud case on its own. */
  function ClusterDispatch(deployment: string, section: Section, w: World, st: State, body: Body): (o: Outcome)
    ensures Selects(section, "gcloud", GcloudClusterParams, {}) ==>
              var bag := section.bags["gcloud"];
              o == Gcloud.ClusterAuth(deployment, bag["project"], bag["cluster"], bag["zone"], bag["service_key"],
                                      w, st, body)
    ensures Selects(section, "aws", AwsClusterParams, AwsOptionalParams) ==>
              var bag := section.bags["aws"];
              o == Aws.ClusterAuth(deployment, Aws.AwsArgs(bag["project"], bag["zone"], bag["cluster"],
                                                          Param(bag, "service_key"), Param(bag, "role_arn")), w, st, body)
    ensures Selects(section, "azure", AzureClusterParams, {}) ==>
              var bag := section.bags["azure"];
              o == Azure.ClusterAuth(deployment, bag["resource_group"], bag["cluster"], bag["auth_file"], w, st, body)
    ensures NoStrategy(section, GcloudClusterParams, AwsClusterParams, AzureClusterParams) ==>
              o.entered.None? && o.st == st && o.cmds == [] && o.exit.Raised?
    ensures SelectProvider(section.provider).Err? ==> o == Raise(st, [], UnknownProvider(section.provider))
    ensures SelectProvider(section.provider).Ok? && section.provider.value !in section.bags ==>
              o == Raise(st, [], KeyMissing(section.provider.value))
  {
    match SelectProvider(section.provider)
    case Err(e) => Raise(st, [], e)
    case Ok(p) =>
      if BagKey(p) !in section.bags then Raise(st, [], KeyMissing(BagKey(p)))
      else
        var bag := section.bags[BagKey(p)];
        match p
        case GcloudProvider =>
          if !Binds(bag, GcloudClusterParams, {}) then Raise(st, [], BadArguments("cluster_auth_gcloud"))
          else Gcloud.ClusterAuth(deployment, bag["project"], bag["cluster"], bag["zone"], bag["service_key"], w, st, body)
        case AwsProvider =>
          if !Binds(bag, AwsClusterParams, AwsOptionalParams) then Raise(st, [], BadArguments("cluster_auth_aws"))
          else Aws.ClusterAuth(deployment, AwsArgsOf(bag, bag["cluster"]), w, st, body)
        case AzureProvider =>
          if !Binds(bag, AzureClusterParams, {}) then Raise(st, [], BadArguments("cluster_auth_azure"))
          else Azure.ClusterAuth(deployment, bag["resource_group"], bag["cluster"], bag["auth_file"], w, st, body)
  }

  /** A registry section tagged `gcloud` whose bag holds exactly `project` and
      `service_key` runs `registry_auth_gcloud` with those two values. */
  lemma GcloudRegistrySelected(deployment: string, project: string, serviceKey: string,
                               w: World, st: State, body: Body)
    ensures var bag := map["project" := project, "service_key" := serviceKey];
            RegistryDispatch(deployment, Section(Some("gcloud"), map["gcloud" := bag]), w, st, body)
              == Gcloud.RegistryAuth(deployment, project, serviceKey, w, st, body)
  {
    var bag := map["project" := project, "service_key" := serviceKey];
    assert bag.Keys == GcloudRegistryParams;
    assert Selects(Section(Some("gcloud"), map["gcloud" := bag]), "gcloud", GcloudRegistryParams, {});
  }

  /** A cluster section tagged `gcloud` whose bag holds exactly `project`,
      `cluster`, `zone` and `service_key` runs `cluster_auth_gcloud` with those
      four values. */
  lemma GcloudClusterSelected(deployment: string, project: string, cluster: string, zone: string,
                              serviceKey: string, w: World, st: State, body: Body)
    ensures var bag := map["project" := project, "cluster" := cluster, "zone" := zone, "service_key" := serviceKey];
            ClusterDispatch(deployment, Section(Some("gcloud"), map["gcloud" := bag]), w, st, body)
              == Gcloud.ClusterAuth(deployment, project, cluster, zone, serviceKey, w, st, body)
  {
    var bag := map["project" := project, "cluster" := cluster, "zone" := zone, "service_key" := serviceKey];
    assert bag.Keys == GcloudClusterParams;
    assert Selects(Section(Some("gcloud"), map["gcloud" := bag]), "gcloud", GcloudClusterParams, {});
  }

  /** `registry_auth(deployment, push, check_registry)`. `config` is what the
      configuration loader returns, None when it raises. */
  function RegistryAuth(deployment: string, push: bool, checkRegistry: bool, config: Option<Deployment>,
                        w: World, st: State, body: Body): (o: Outcome)
    ensures !(push || checkRegistry) ==> o.entered == Some(st.env) && o.cmds == [] && o.st.docker == st.docker
    ensures (push || checkRegistry) && (config.None? || config.value.registry.None?) ==>
              o.entered.None? && o.st == st && o.cmds == [] && o.exit.Raised?
    ensures (push || checkRegistry) && config.Some? && config.value.registry.Some? ==>
              o == RegistryDispatch(deployment, config.value.registry.value, w, st, body)
  {
    if !(push || checkRegistry) then Enter(st, [], body)
    else
      match config
      case None => Raise(st, [], ConfigUnavailable)
      case Some(c) =>
        if c.registry.None? then Raise(st, [], DidNotYield)
        else RegistryDispatch(deployment, c.registry.value, w, st, body)
  }

  /** The snapshot `cluster_auth` takes of `KUBECONFIG` before its `try`. */
  function KubeconfigSaved(st: State): seq<Saved>
  {
    [Saved(KubeconfigVar, Lookup(st.env, KubeconfigVar))]
  }

  /** The state in which `cluster_auth` dispatches: `KUBECONFIG` names the
      temporary file. */
  function Redirected(st: State, w: World): State
  {
    st.(env := st.env[KubeconfigVar := w.kubeconfigTemp])
  }

  /** `cluster_auth(deployment)`. */
  function ClusterAuth(deployment: string, config: Option<Deployment>, w: World, st: State, body: Body): (o: Outcome)
    ensures config.None? || config.value.cluster.None? ==> o.entered.None? && o.st == st && o.cmds == [] && o.exit.Raised?
    ensures config.Some? && config.value.cluster.Some? ==>
              var inner := ClusterDispatch(deployment, config.value.cluster.value, w, Redirected(st, w), body);
              && o.entered == inner.entered
              && o.cmds == inner.cmds
              && o.st.docker == inner.st.docker
  {
    match config
    case None => Raise(st, [], ConfigUnavailable)
    case Some(c) =>
      if c.cluster.None? then Raise(st, [], DidNotYield)
      else Finally(ClusterDispatch(deployment, c.cluster.value, w, Redirected(st, w), body), Bound(KubeconfigSaved(st)))
  }

  /** The AWS bag a section selects, when it binds to the strategy's
      parameters. */
  function AwsBag(section: Section, cluster: bool): (r: Option<Bag>)
    ensures r.Some? ==> "project" in r.value && "zone" in r.value && (cluster ==> "cluster" in r.value)
  {
    var required := if cluster then AwsClusterParams else AwsRegistryParams;
    if section.provider == Some("aws") && "aws" in section.bags && Binds(section.bags["aws"], required, AwsOptionalParams)
    then
      assert "project" in required && "zone" in required && (cluster ==> "cluster" in required);
      Some(section.bags["aws"])
    else None
  }

  /** The AWS variables a section's dispatch touches: those of the AWS
      strategy's branch when the section selects a binding AWS bag, none
      otherwise. */
  function SectionTouched(section: Section, cluster: bool): (r: set<string>)
    ensures r <= Aws.AwsVars
  {
    match AwsBag(section, cluster)
    case None => {}
    case Some(bag) => Aws.Touched(AwsArgsOf(bag, if cluster then bag["cluster"] else ""))
  }

  /** The variables `registry_auth` may touch for a configuration. */
  function RegistryTouched(push: bool, checkRegistry: bool, config: Option<Deployment>): set<string>
  {
    if (push || checkRegistry) && config.Some? && config.value.registry.Some?
    then SectionTouched(config.value.registry.value, false)
    else {}
  }

  /** The variables `cluster_auth` may touch for a configuration. */
  function ClusterTouched(config: Option<Deployment>): set<string>
  {
    if config.Some? && config.value.cluster.Some?
    then {KubeconfigVar} + SectionTouched(config.value.cluster.value, true)
    else {}
  }

  /** Any dispatch, on any path: only the AWS variables are changed other than
      by the body; with a body that keeps the touched variables set they are
      restored and the statement ends as the body did; and no command runs
      after a failed one. */
  lemma {:induction false} RegistryDispatchSound(deployment: string, section: Section, w: World, st: State, body: Body)
    ensures var o := RegistryDispatch(deployment, section, w, st, body);
            && Confined(o, st, Aws.AwsVars, body)
            && StopsAtFailure(o, w.tools)
            && (KeepsPresent(body, SectionTouched(section, false)) ==>
                  && Restores(o, st, SectionTouched(section, false), body)
                  && (o.entered.Some? ==> o.exit == body(o.entered.value).exit))
  {
    var o := RegistryDispatch(deployment, section, w, st, body);
    var touched := SectionTouched(section, false);
    var p := SelectProvider(section.provider);
    if p.Ok? && BagKey(p.value) in section.bags {
      var bag := section.bags[BagKey(p.value)];
      match p.value
      case GcloudProvider =>
        if Binds(bag, GcloudRegistryParams, {}) {
          Aws.ConfinedWidens(o, st, {}, Aws.AwsVars, body);
        }
      case AzureProvider =>
        if Binds(bag, AzureRegistryParams, {}) {
          Aws.ConfinedWidens(o, st, {}, Aws.AwsVars, body);
        }
      case AwsProvider =>
        if Binds(bag, AwsRegistryParams, AwsOptionalParams) {
          var a := AwsArgsOf(bag, "");
          assert touched == Aws.Touched(a);
          Aws.RegistryConfined(deployment, a, w, st, body);
          Aws.StrategiesStopAtFailure(deployment, a, w, st, body);
          if KeepsPresent(body, touched) {
            Aws.StrategiesRestore(deployment, a, w, st, body);
          }
        }
    }
  }

  lemma {:induction false} ClusterDispatchSound(deployment: string, section: Section, w: World, st: State, body: Body)
    ensures var o := ClusterDispatch(deployment, section, w, st, body);
            && Confined(o, st, Aws.AwsVars, body)
            && StopsAtFailure(o, w.tools)
            && o.st.docker == st.docker
            && (KeepsPresent(body, SectionTouched(section, true)) ==>
                  && Restores(o, st, SectionTouched(section, true), body)
                  && (o.entered.Some? ==> o.exit == body(o.entered.value).exit))
  {
    var o := ClusterDispatch(deployment, section, w, st, body);
    var touched := SectionTouched(section, true);
    var p := SelectProvider(section.provider);
    if p.Ok? && BagKey(p.value) in section.bags {
      var bag := section.bags[BagKey(p.value)];
      match p.value
      case GcloudProvider =>
        if Binds(bag, GcloudClusterParams, {}) {
          Aws.ConfinedWidens(o, st, {}, Aws.AwsVars, body);
        }
      case AzureProvider =>
        if Binds(bag, AzureClusterParams, {}) {
          Aws.ConfinedWidens(o, st, {}, Aws.AwsVars, body);
        }
      case AwsProvider =>
        if Binds(bag, AwsClusterParams, AwsOptionalParams) {
          var a := AwsArgsOf(bag, bag["cluster"]);
          assert touched == Aws.Touched(a);
          Aws.ClusterConfined(deployment, a, w, st, body);
          Aws.StrategiesStopAtFailure(deployment, a, w, st, body);
          if KeepsPresent(body, touched) {
            Aws.StrategiesRestore(deployment, a, w, st, body);
          }
        }
    }
  }

  /** With neither `push` nor `check_registry`, `registry_auth` runs the body
      at once: the configuration (even one that fails to load) and the outside
      world are never consulted. */
  lemma RegistryFastPath(deployment: string, config: Option<Deployment>, w: World, st: State, body: Body)
    ensures var o := RegistryAuth(deployment, false, false, config, w, st, body);
            && o.entered == Some(st.env)
            && o.cmds == []
            && o.st == State(body(st.env).env, st.docker)
            && o.exit == body(st.env).exit
  {
  }

  /** Without an `images.registry` or a `cluster` section the generator never
      yields, which `contextlib` reports as a RuntimeError; nothing changes. */
  lemma MissingSectionDoesNotYield(deployment: string, push: bool, checkRegistry: bool, c: Deployment,
                                   w: World, st: State, body: Body)
    ensures (push || checkRegistry) && c.registry.None? ==>
              RegistryAuth(deployment, push, checkRegistry, Some(c), w, st, body) == Raise(st, [], DidNotYield)
    ensures c.cluster.None? ==> ClusterAuth(deployment, Some(c), w, st, body) == Raise(st, [], DidNotYield)
  {
  }

  /** An unknown provider tag raises a ValueError naming it and changes
      nothing: in `cluster_auth` the `finally` clause undoes the `KUBECONFIG`
      redirection exactly. */
  lemma {:induction false} UnknownProviderRaises(deployment: string, push: bool, checkRegistry: bool,
                                                 c: Deployment, w: World, st: State, body: Body)
    ensures (push || checkRegistry) && c.registry.Some? && SelectProvider(c.registry.value.provider).Err? ==>
              RegistryAuth(deployment, push, checkRegistry, Some(c), w, st, body)
              == Raise(st, [], UnknownProvider(c.registry.value.provider))
    ensures c.cluster.Some? && SelectProvider(c.cluster.value.provider).Err? ==>
              ClusterAuth(deployment, Some(c), w, st, body) == Raise(st, [], UnknownProvider(c.cluster.value.provider))
  {
    if c.cluster.Some? && SelectProvider(c.cluster.value.provider).Err? {
      var st1 := Redirected(st, w);
      SingleScopeRoundTrip(st.env, KubeconfigVar, w.kubeconfigTemp);
      assert UnsetEnvVar(st1.env, KubeconfigVar, Lookup(st.env, KubeconfigVar)) == Ok(st.env);
      assert RestoreAll(st1.env, KubeconfigSaved(st)) == Teardown(st.env, None) by {
        assert KubeconfigSaved(st)[1..] == [];
      }
    }
  }

  /** `registry_auth`, on every path: only the AWS variables change other
      than through the body, those the selected branch touched are restored
      when the body keeps them set, and no command runs after a failed one. */
  lemma {:induction false} RegistryAuthSound(deployment: string, push: bool, checkRegistry: bool,
                                             config: Option<Deployment>, w: World, st: State, body: Body)
    ensures var o := RegistryAuth(deployment, push, checkRegistry, config, w, st, body);
            && Confined(o, st, Aws.AwsVars, body)
            && StopsAtFailure(o, w.tools)
            && (KeepsPresent(body, RegistryTouched(push, checkRegistry, config)) ==>
                  && Restores(o, st, RegistryTouched(push, checkRegistry, config), body)
                  && (o.entered.Some? ==> o.exit == body(o.entered.value).exit))
  {
    var o := RegistryAuth(deployment, push, checkRegistry, config, w, st, body);
    if (push || checkRegistry) && config.Some? && config.value.registry.Some? {
      RegistryDispatchSound(deployment, config.value.registry.value, w, st, body);
    } else {
      Aws.ConfinedWidens(o, st, {}, Aws.AwsVars, body);
    }
  }

  lemma RedirectedSound(st: State, w: World)
    ensures SoundFrame(st, Redirected(st, w), KubeconfigSaved(st), {KubeconfigVar})
  {
    MinusUpdate(st.env, KubeconfigVar, w.kubeconfigTemp, {KubeconfigVar});
  }

  /** `cluster_auth` restores `KUBECONFIG` on every path (every provider, an
      unknown tag, an unbindable bag, a failing strategy, a raising body) as
      long as the body leaves it set; besides it only the AWS variables change
      other than through the body; and the statement ends as the dispatch did. */
  lemma {:induction false} ClusterAuthRestoresKubeconfig(deployment: string, config: Option<Deployment>,
                                                         w: World, st: State, body: Body)
    requires KeepsPresent(body, {KubeconfigVar})
    ensures var o := ClusterAuth(deployment, config, w, st, body);
            && Lookup(o.st.env, KubeconfigVar) == Lookup(st.env, KubeconfigVar)
            && Confined(o, st, {KubeconfigVar} + Aws.AwsVars, body)
            && StopsAtFailure(o, w.tools)
  {
    var o := ClusterAuth(deployment, config, w, st, body);
    if config.Some? && config.value.cluster.Some? {
      ScopedDispatchSound(deployment, config.value.cluster.value, w, st, body);
    } else {
      Aws.ConfinedWidens(o, st, {}, {KubeconfigVar} + Aws.AwsVars, body);
    }
  }

  lemma KubeconfigIsNotAws()
    ensures {KubeconfigVar} !! Aws.AwsVars
  {
  }

  /** The `try`/`finally` of `cluster_auth` around a dispatch. */
  lemma ScopedDispatchSound(deployment: string, section: Section, w: World, st: State, body: Body)
    requires KeepsPresent(body, {KubeconfigVar})
    ensures var o := Finally(ClusterDispatch(deployment, section, w, Redirected(st, w), body), Bound(KubeconfigSaved(st)));
            && Lookup(o.st.env, KubeconfigVar) == Lookup(st.env, KubeconfigVar)
            && Confined(o, st, {KubeconfigVar} + Aws.AwsVars, body)
            && StopsAtFailure(o, w.tools)
  {
    var st1 := Redirected(st, w);
    var inner := ClusterDispatch(deployment, section, w, st1, body);
    var f := Finally(inner, Bound(KubeconfigSaved(st)));
    ClusterDispatchSound(deployment, section, w, st1, body);
    RedirectedSound(st, w);
    KubeconfigIsNotAws();
    FinallyRestores(st, st1, KubeconfigSaved(st), {KubeconfigVar}, inner, Aws.AwsVars, body);
    assert KubeconfigVar in {KubeconfigVar};
    assert f.cmds == inner.cmds && f.entered == inner.entered && f.exit == inner.exit;
    StopsAtFailureSameRun(inner, f, w.tools);
  }

  /** `StopsAtFailure` depends only on the commands, the entry and the ending. */
  lemma StopsAtFailureSameRun(o: Outcome, f: Outcome, tools: Command -> bool)
    requires StopsAtFailure(o, tools)
    requires f.cmds == o.cmds && f.entered == o.entered && f.exit == o.exit
    ensures StopsAtFailure(f, tools)
  {
  }

  /** The nested scopes of `cluster_auth`: `KUBECONFIG` outside, the AWS
      strategy's variables inside. When the body keeps every touched variable
      set, each of them reads afterwards exactly as before the call, whether
      the body returned or raised, and the statement ends as the body did. */
  lemma {:induction false} ClusterAuthRestores(deployment: string, config: Option<Deployment>,
                                               w: World, st: State, body: Body)
    requires KeepsPresent(body, ClusterTouched(config))
    ensures var o := ClusterAuth(deployment, config, w, st, body);
            && Restores(o, st, ClusterTouched(config), body)
            && (o.entered.Some? ==> o.exit == body(o.entered.value).exit)
  {
    var o := ClusterAuth(deployment, config, w, st, body);
    if config.Some? && config.value.cluster.Some? {
      var section := config.value.cluster.value;
      var inner := SectionTouched(section, true);
      var st1 := Redirected(st, w);
      var o1 := ClusterDispatch(deployment, section, w, st1, body);
      KeepsPresentSubset(body, ClusterTouched(config), inner);
      KeepsPresentSubset(body, ClusterTouched(config), {KubeconfigVar});
      ClusterDispatchSound(deployment, section, w, st1, body);
      RedirectedSound(st, w);
      FinallyRestores(st, st1, KubeconfigSaved(st), {KubeconfigVar}, o1, inner, body);
      forall k | k in inner ensures Lookup(o.st.env, k) == Lookup(st.env, k) {
        assert Lookup(o1.st.env, k) == Lookup(st1.env, k);
        assert k != KubeconfigVar;
      }
    }
  }

  lemma KeepsPresentSubset(body: Body, large: set<string>, small: set<string>)
    requires small <= large
    requires KeepsPresent(body, large)
    ensures KeepsPresent(body, small)
  {
    forall e: Env ensures e.Keys * small <= body(e).env.Keys {
      assert e.Keys * large <= body(e).env.Keys;
    }
  }

  /** The body of `cluster_auth` always runs with `KUBECONFIG` naming the
      temporary file: no strategy touches it. */
  lemma {:induction false} ClusterBodySeesTemporaryKubeconfig(deployment: string, config: Option<Deployment>,
                                                              w: World, st: State, body: Body)
    ensures var o := ClusterAuth(deployment, config, w, st, body);
            o.entered.Some? ==> Lookup(o.entered.value, KubeconfigVar) == Some(w.kubeconfigTemp)
  {
    var o := ClusterAuth(deployment, config, w, st, body);
    if config.Some? && config.value.cluster.Some? {
      var st1 := Redirected(st, w);
      var o1 := ClusterDispatch(deployment, config.value.cluster.value, w, st1, body);
      ClusterDispatchSound(deployment, config.value.cluster.value, w, st1, body);
      KubeconfigIsNotAws();
      assert o.entered == o1.entered;
      if o1.entered.Some? {
        var e := o1.entered.value;
        assert e - Aws.AwsVars == st1.env - Aws.AwsVars;
        assert Lookup(e - Aws.AwsVars, KubeconfigVar) == Lookup(e, KubeconfigVar);
        assert Lookup(st1.env - Aws.AwsVars, KubeconfigVar) == Some(w.kubeconfigTemp);
      }
    }
  }

  /** The cluster section of a deployment whose AWS bag is `bag`. */
  function AwsCluster(bag: Bag): Deployment
  {
    Deployment(None, Some(Section(Some("aws"), map["aws" := bag])))
  }

  /** A `cluster.aws` bag with `cluster`, `zone` and `role_arn` but no
      `project` does not bind, since `project` has no default: the call raises
      a TypeError before any credential is exported, and the `finally` clause
      puts `KUBECONFIG` back exactly. */
  lemma {:induction false} AwsBagWithoutProject(deployment: string, clusterName: string, zone: string, roleArn: string,
                                                w: World, st: State, body: Body)
    ensures var bag := map["cluster" := clusterName, "zone" := zone, "role_arn" := roleArn];
            ClusterAuth(deployment, Some(AwsCluster(bag)), w, st, body) == Raise(st, [], BadArguments("cluster_auth_aws"))
  {
    var bag := map["cluster" := clusterName, "zone" := zone, "role_arn" := roleArn];
    assert "project" !in bag;
    assert "project" in AwsClusterParams;
    assert !Binds(bag, AwsClusterParams, AwsOptionalParams);
    var st1 := Redirected(st, w);
    SingleScopeRoundTrip(st.env, KubeconfigVar, w.kubeconfigTemp);
    assert UnsetEnvVar(st1.env, KubeconfigVar, Lookup(st.env, KubeconfigVar)) == Ok(st.env);
    assert RestoreAll(st1.env, KubeconfigSaved(st)) == Teardown(st.env, None) by {
      assert KubeconfigSaved(st)[1..] == [];
    }
  }

  /** An AWS cluster reached through an assumed role: the body runs with
      `KUBECONFIG` on the temporary file and the role's three credentials
      exported, after exactly one command, `aws eks update-kubeconfig` for the
      cluster and zone; afterwards all four variables read as before the call
      (unset ones unset again) and the statement ends as the body did. */
  lemma {:induction false} AwsRoleScenario(deployment: string, project: string, clusterName: string, zone: string,
                                           roleArn: string, w: World, st: State, body: Body)
    requires roleArn != ""
    requires w.sts(RoleRequest(roleArn, "cluster")).Some?
    requires w.tools(AwsEksUpdateKubeconfig(clusterName, zone))
    requires KeepsPresent(body, {KubeconfigVar} + Aws.RoleVarSet)
    ensures var bag := map["project" := project, "cluster" := clusterName, "zone" := zone, "role_arn" := roleArn];
            var o := ClusterAuth(deployment, Some(AwsCluster(bag)), w, st, body);
            var c := w.sts(RoleRequest(roleArn, "cluster")).value;
            && o.cmds == [AwsEksUpdateKubeconfig(clusterName, zone)]
            && o.entered.Some?
            && Lookup(o.entered.value, KubeconfigVar) == Some(w.kubeconfigTemp)
            && Lookup(o.entered.value, Aws.AccessKeyIdVar) == Some(c.accessKeyId)
            && Lookup(o.entered.value, Aws.SecretAccessKeyVar) == Some(c.secretAccessKey)
            && Lookup(o.entered.value, Aws.SessionTokenVar) == Some(c.sessionToken)
            && (forall k :: k in {KubeconfigVar} + Aws.RoleVarSet ==> Lookup(o.st.env, k) == Lookup(st.env, k))
            && o.exit == body(o.entered.value).exit
  {
    var bag := map["project" := project, "cluster" := clusterName, "zone" := zone, "role_arn" := roleArn];
    var config := Some(AwsCluster(bag));
    var section := AwsCluster(bag).cluster.value;
    assert bag.Keys == {"project", "cluster", "zone", "role_arn"};
    assert Binds(bag, AwsClusterParams, AwsOptionalParams);
    var a := AwsArgsOf(bag, clusterName);
    assert a == Aws.AwsArgs(project, zone, clusterName, None, Some(roleArn));
    assert ClusterTouched(config) == {KubeconfigVar} + Aws.RoleVarSet;
    var st1 := Redirected(st, w);
    var s := Aws.ClusterSetup(deployment, a, w, st1);
    assert s.Acquired? && s.failure.None? && s.cmds == [AwsEksUpdateKubeconfig(clusterName, zone)];
    Aws.EnteredAfterSetup(st1, s, body);
    Aws.BodySeesCredentials(deployment, a, w, st1, body);
    ClusterBodySeesTemporaryKubeconfig(deployment, config, w, st, body);
    ClusterAuthRestores(deployment, config, w, st, body);
  }
}
