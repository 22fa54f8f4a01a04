/** `registry_auth_aws` and `cluster_auth_aws`: credentials from a shared
    credentials file or from an assumed role, exported through environment
    variables that the `finally` clause restores. */
module Aws {
  import opened Common
  import opened Environ
  import opened Paths
  import opened DockerConfig
  import opened Scope

  const CredentialsFileVar: string := "AWS_SHARED_CREDENTIALS_FILE"
  const AccessKeyIdVar: string := "AWS_ACCESS_KEY_ID"
  const SecretAccessKeyVar: string := "AWS_SECRET_ACCESS_KEY"
  const SessionTokenVar: string := "AWS_SESSION_TOKEN"

  /** The role variables, in the order they are set and restored. */
  const RoleVars: seq<string> := [AccessKeyIdVar, SecretAccessKeyVar, SessionTokenVar]
  const RoleVarSet: set<string> := {AccessKeyIdVar, SecretAccessKeyVar, SessionTokenVar}

  /** Every variable either AWS strategy may set. */
  const AwsVars: set<string> := {CredentialsFileVar, AccessKeyIdVar, SecretAccessKeyVar, SessionTokenVar}

  /** The keyword parameters of the two AWS strategies (`cluster` is unused by
      the registry one). */
  datatype AwsArgs = AwsArgs(project: string, zone: string, cluster: string,
                             serviceKey: Option<string>, roleArn: Option<string>)

  /** Python truthiness of an optional string parameter: None and "" are false. */
  predicate Given(p: Option<string>)
  {
    p.Some? && p.value != ""
  }

  /** The variables a strategy call snapshots and restores: the credentials
      file variable when a service key is given (it wins over a role), the
      three role variables otherwise. */
  function Touched(a: AwsArgs): (r: set<string>)
    ensures r <= AwsVars
  {
    if Given(a.serviceKey) then {CredentialsFileVar} else RoleVarSet
  }

  function RoleValues(c: Credentials): seq<string>
  {
    [c.accessKeyId, c.secretAccessKey, c.sessionToken]
  }

  /** The role branch up to its assignments: assume the role, snapshot the
      three variables, then set them. A failing STS call raises before the
      snapshots exist. */
  function RoleSetup(roleArn: string, sessionName: string, w: World, st: State): (r: Setup)
    ensures r.Acquired? && r.cmds == [] && r.st.docker == st.docker
    ensures r.failure.None? <==> w.sts(RoleRequest(roleArn, sessionName)).Some?
    ensures r.failure.Some? ==>
              r.st == st && r.frame == Unbound("original_access_key_id") && r.failure == Some(AssumeRoleFailed(roleArn))
    ensures r.failure.None? ==>
              var c := w.sts(RoleRequest(roleArn, sessionName)).value;
              && Lookup(r.st.env, AccessKeyIdVar) == Some(c.accessKeyId)
              && Lookup(r.st.env, SecretAccessKeyVar) == Some(c.secretAccessKey)
              && Lookup(r.st.env, SessionTokenVar) == Some(c.sessionToken)
  {
    match w.sts(RoleRequest(roleArn, sessionName))
    case None => Acquired(st, [], Unbound("original_access_key_id"), Some(AssumeRoleFailed(roleArn)))
    case Some(c) =>
      RoleValuesSet(st, roleArn, sessionName, w);
      Acquired(State(AssignAll(st.env, RoleVars, RoleValues(c)), st.docker), [],
               Bound(Capture(st.env, RoleVars)), None)
  }

  /** The service-key branch's assignment: snapshot the credentials file
      variable, then point it at the key file. */
  function KeyFileSaved(st: State): seq<Saved>
  {
    [Saved(CredentialsFileVar, Lookup(st.env, CredentialsFileVar))]
  }

  /** When `registry_auth_aws` reaches its `yield`: with a service key, the
      key file exists and the docker configuration loads and takes the helper
      entry; otherwise a role is given and STS answers for session `registry`. */
  predicate RegistryReady(deployment: string, a: AwsArgs, w: World, st: State)
  {
    if Given(a.serviceKey) then
      && SecretPath(deployment, a.serviceKey.value) in w.files
      && Load(st.docker).Ok?
      && AddCredHelper(Load(st.docker).value, EcrRegistry(a.project, a.zone)).Ok?
    else Given(a.roleArn) && w.sts(RoleRequest(a.roleArn.value, "registry")).Some?
  }

  /** When `cluster_auth_aws` reaches its `yield`: a service key is given, or a
      role for which STS answers for session `cluster`; and
      `aws eks update-kubeconfig` succeeds. */
  predicate ClusterReady(a: AwsArgs, w: World)
  {
    && (Given(a.serviceKey) || (Given(a.roleArn) && w.sts(RoleRequest(a.roleArn.value, "cluster")).Some?))
    && w.tools(AwsEksUpdateKubeconfig(a.cluster, a.zone))
  }

  /** `registry_auth_aws` up to its `yield`. */
  function RegistrySetup(deployment: string, a: AwsArgs, w: World, st: State): (r: Setup)
    ensures r.Refused? <==> !Given(a.serviceKey) && !Given(a.roleArn)
    ensures r.Refused? ==> r.error == NoAwsCredentials
    ensures r.Acquired? ==> r.cmds == []
    ensures r.Acquired? && r.failure.Some? ==> r.st.docker == st.docker
    ensures r.Acquired? && r.failure.None? <==> RegistryReady(deployment, a, w, st)
    ensures r.Acquired? && r.failure.None? ==> CredentialsActive(deployment, a, w, "registry", r.st.env)
  {
    if !Given(a.serviceKey) && !Given(a.roleArn) then Refused(NoAwsCredentials)
    else if Given(a.serviceKey) then
      var path := SecretPath(deployment, a.serviceKey.value);
      if path !in w.files then
        Acquired(st, [], Unbound("original_credential_file_loc"), Some(FileNotFound(path)))
      else
        var st1 := st.(env := st.env[CredentialsFileVar := path]);
        match Load(st.docker)
        case Err(e) => Acquired(st1, [], Bound(KeyFileSaved(st)), Some(e))
        case Ok(doc) =>
          match AddCredHelper(doc, EcrRegistry(a.project, a.zone))
          case Err(e) => Acquired(st1, [], Bound(KeyFileSaved(st)), Some(e))
          case Ok(merged) => Acquired(st1.(docker := Present(merged)), [], Bound(KeyFileSaved(st)), None)
    else
      RoleSetup(a.roleArn.value, "registry", w, st)
  }

  /** `cluster_auth_aws` up to its `yield`: the same two branches (without the
      key file existence check or the docker configuration), then
      `aws eks update-kubeconfig`. */
  function ClusterSetup(deployment: string, a: AwsArgs, w: World, st: State): (r: Setup)
    ensures r.Refused? <==> !Given(a.serviceKey) && !Given(a.roleArn)
    ensures r.Refused? ==> r.error == NoAwsCredentials
    ensures r.Acquired? && r.failure.None? <==> ClusterReady(a, w)
    ensures r.Acquired? && r.cmds != [] ==>
              r.cmds == [AwsEksUpdateKubeconfig(a.cluster, a.zone)] && CredentialsActive(deployment, a, w, "cluster", r.st.env)
    ensures r.Acquired? && r.failure.None? ==> r.cmds != []
  {
    if !Given(a.serviceKey) && !Given(a.roleArn) then Refused(NoAwsCredentials)
    else
      var s :=
        if Given(a.serviceKey) then
          var path := SecretPath(deployment, a.serviceKey.value);
          Acquired(st.(env := st.env[CredentialsFileVar := path]), [], Bound(KeyFileSaved(st)), None)
        else RoleSetup(a.roleArn.value, "cluster", w, st);
      if s.Acquired? && s.failure.None? then
        var update := AwsEksUpdateKubeconfig(a.cluster, a.zone);
        s.(cmds := [update], failure := if w.tools(update) then None else Some(ToolFailed(update)))
      else s
  }

  /** `registry_auth_aws`. */
  function RegistryAuth(deployment: string, a: AwsArgs, w: World, st: State, body: Body): (o: Outcome)
    ensures o.entered.Some? <==> RegistryReady(deployment, a, w, st)
    ensures o.entered.Some? ==> o.cmds == [] && CredentialsActive(deployment, a, w, "registry", o.entered.value)
  {
    Run(st, RegistrySetup(deployment, a, w, st), body)
  }

  /** `cluster_auth_aws`. */
  function ClusterAuth(deployment: string, a: AwsArgs, w: World, st: State, body: Body): (o: Outcome)
    ensures o.entered.Some? <==> ClusterReady(a, w)
    ensures o.entered.Some? ==>
              o.cmds == [AwsEksUpdateKubeconfig(a.cluster, a.zone)] && CredentialsActive(deployment, a, w, "cluster", o.entered.value)
  {
    Run(st, ClusterSetup(deployment, a, w, st), body)
  }

  lemma RoleVarsFacts()
    ensures DistinctStrings(RoleVars)
    ensures (set k | k in RoleVars) == RoleVarSet
  {
  }

  lemma {:induction false} RoleSetupSound(roleArn: string, sessionName: string, w: World, st: State)
    ensures SoundSetup(st, RoleSetup(roleArn, sessionName, w, st), RoleVarSet)
  {
    RoleVarsFacts();
    match w.sts(RoleRequest(roleArn, sessionName))
    case None =>
    case Some(c) =>
      var saved := Capture(st.env, RoleVars);
      assert KeysOf(saved) == RoleVarSet by {
        assert saved == [Saved(AccessKeyIdVar, Lookup(st.env, AccessKeyIdVar)),
                         Saved(SecretAccessKeyVar, Lookup(st.env, SecretAccessKeyVar)),
                         Saved(SessionTokenVar, Lookup(st.env, SessionTokenVar))];
      }
      var env1 := AssignAll(st.env, RoleVars, RoleValues(c));
      assert Lookup(env1, RoleVars[0]) == Some(c.accessKeyId);
      assert Lookup(env1, RoleVars[1]) == Some(c.secretAccessKey);
      assert Lookup(env1, RoleVars[2]) == Some(c.sessionToken);
  }

  lemma KeyFileFrameSound(st: State, path: string, docker: DockerFile)
    ensures SoundFrame(st, State(st.env[CredentialsFileVar := path], docker), KeyFileSaved(st), {CredentialsFileVar})
  {
    MinusUpdate(st.env, CredentialsFileVar, path, {CredentialsFileVar});
  }

  /** Both setups are sound for the variables their branch touches. */
  lemma SetupsSound(deployment: string, a: AwsArgs, w: World, st: State)
    ensures SoundSetup(st, RegistrySetup(deployment, a, w, st), Touched(a))
    ensures SoundSetup(st, ClusterSetup(deployment, a, w, st), Touched(a))
  {
    RegistrySetupSound(deployment, a, w, st);
    ClusterSetupSound(deployment, a, w, st);
  }

  lemma RegistrySetupSound(deployment: string, a: AwsArgs, w: World, st: State)
    ensures SoundSetup(st, RegistrySetup(deployment, a, w, st), Touched(a))
  {
    if Given(a.serviceKey) {
      var path := SecretPath(deployment, a.serviceKey.value);
      if path in w.files {
        KeyFileFrameSound(st, path, st.docker);
        if Load(st.docker).Ok? {
          var merged := AddCredHelper(Load(st.docker).value, EcrRegistry(a.project, a.zone));
          if merged.Ok? {
            KeyFileFrameSound(st, path, Present(merged.value));
          }
        }
      }
    } else if Given(a.roleArn) {
      RoleSetupSound(a.roleArn.value, "registry", w, st);
    }
  }

  lemma ClusterSetupSound(deployment: string, a: AwsArgs, w: World, st: State)
    ensures SoundSetup(st, ClusterSetup(deployment, a, w, st), Touched(a))
  {
    if Given(a.serviceKey) {
      KeyFileFrameSound(st, SecretPath(deployment, a.serviceKey.value), st.docker);
    } else if Given(a.roleArn) {
      RoleSetupSound(a.roleArn.value, "cluster", w, st);
    }
  }

  /** With neither a service key nor a role, both strategies raise before the
      `try`: nothing is mutated, no command runs and the body never runs. */
  lemma NeitherGivenRefused(deployment: string, a: AwsArgs, w: World, st: State, body: Body)
    requires !Given(a.serviceKey) && !Given(a.roleArn)
    ensures RegistryAuth(deployment, a, w, st, body) == Raise(st, [], NoAwsCredentials)
    ensures ClusterAuth(deployment, a, w, st, body) == Raise(st, [], NoAwsCredentials)
  {
  }

  /** When a service key is given the service-key branch is taken even if a
      role is given too: the STS service is never consulted, and the role
      variables are left to the body. */
  lemma ServiceKeyWins(deployment: string, a: AwsArgs, w: World, other: RoleRequest -> Option<Credentials>,
                       st: State, body: Body)
    requires Given(a.serviceKey)
    ensures RegistryAuth(deployment, a, w, st, body) == RegistryAuth(deployment, a, w.(sts := other), st, body)
    ensures ClusterAuth(deployment, a, w, st, body) == ClusterAuth(deployment, a, w.(sts := other), st, body)
    ensures Touched(a) !! RoleVarSet
  {
    var w2 := w.(sts := other);
    RegistrySetupIgnoresSts(deployment, a, w, other, st);
    ClusterSetupIgnoresSts(deployment, a, w, other, st);
    assert RegistryAuth(deployment, a, w, st, body) == Run(st, RegistrySetup(deployment, a, w, st), body);
    assert RegistryAuth(deployment, a, w2, st, body) == Run(st, RegistrySetup(deployment, a, w2, st), body);
    assert ClusterAuth(deployment, a, w, st, body) == Run(st, ClusterSetup(deployment, a, w, st), body);
    assert ClusterAuth(deployment, a, w2, st, body) == Run(st, ClusterSetup(deployment, a, w2, st), body);
  }

  lemma RegistrySetupIgnoresSts(deployment: string, a: AwsArgs, w: World, other: RoleRequest -> Option<Credentials>,
                                st: State)
    requires Given(a.serviceKey)
    ensures RegistrySetup(deployment, a, w, st) == RegistrySetup(deployment, a, w.(sts := other), st)
  {
    assert w.(sts := other).files == w.files;
  }

  lemma ClusterSetupIgnoresSts(deployment: string, a: AwsArgs, w: World, other: RoleRequest -> Option<Credentials>,
                               st: State)
    requires Given(a.serviceKey)
    ensures ClusterSetup(deployment, a, w, st) == ClusterSetup(deployment, a, w.(sts := other), st)
  {
    assert w.(sts := other).tools == w.tools;
  }

  /** Whatever the body does, the strategies change no variable outside the
      four AWS ones except through the body, and the docker configuration only
      on the registry service-key path. */
  lemma {:induction false} RegistryConfined(deployment: string, a: AwsArgs, w: World, st: State, body: Body)
    ensures Confined(RegistryAuth(deployment, a, w, st, body), st, AwsVars, body)
    ensures !Given(a.serviceKey) ==> RegistryAuth(deployment, a, w, st, body).st.docker == st.docker
    ensures RegistryAuth(deployment, a, w, st, body).entered.None? ==> RegistryAuth(deployment, a, w, st, body).st.docker == st.docker
  {
    SetupsSound(deployment, a, w, st);
    var s := RegistrySetup(deployment, a, w, st);
    RunConfined(st, s, Touched(a), body);
    ConfinedWidens(Run(st, s, body), st, Touched(a), AwsVars, body);
    if !Given(a.serviceKey) {
      RunKeepsDocker(st, s, body);
    }
  }

  lemma {:induction false} ClusterConfined(deployment: string, a: AwsArgs, w: World, st: State, body: Body)
    ensures Confined(ClusterAuth(deployment, a, w, st, body), st, AwsVars, body)
    ensures ClusterAuth(deployment, a, w, st, body).st.docker == st.docker
  {
    SetupsSound(deployment, a, w, st);
    var s := ClusterSetup(deployment, a, w, st);
    RunConfined(st, s, Touched(a), body);
    ConfinedWidens(Run(st, s, body), st, Touched(a), AwsVars, body);
    RunKeepsDocker(st, s, body);
  }

  lemma RunKeepsDocker(st: State, s: Setup, body: Body)
    requires s.Acquired? ==> s.st.docker == st.docker
    ensures Run(st, s, body).st.docker == st.docker
  {
  }

  lemma ConfinedWidens(o: Outcome, st: State, small: set<string>, large: set<string>, body: Body)
    requires small <= large
    requires Confined(o, st, small, body)
    ensures Confined(o, st, large, body)
  {
    if o.entered.None? {
      MinusMonotone(o.st.env, st.env, small, large);
    } else {
      var e := o.entered.value;
      MinusMonotone(e, st.env, small, large);
      MinusMonotone(o.st.env, body(e).env, small, large);
    }
  }

  /** Once the snapshots are taken, the `finally` clause puts every variable
      the branch touched back to its state before the call (value or absence),
      whether the body returns or raises, as long as the body leaves them set;
      the statement then ends exactly as the body did. */
  lemma {:induction false} StrategiesRestore(deployment: string, a: AwsArgs, w: World, st: State, body: Body)
    requires KeepsPresent(body, Touched(a))
    ensures var o := RegistryAuth(deployment, a, w, st, body);
            Restores(o, st, Touched(a), body) && (o.entered.Some? ==> o.exit == body(o.entered.value).exit)
    ensures var o := ClusterAuth(deployment, a, w, st, body);
            Restores(o, st, Touched(a), body) && (o.entered.Some? ==> o.exit == body(o.entered.value).exit)
  {
    SetupsSound(deployment, a, w, st);
    RunRestores(st, RegistrySetup(deployment, a, w, st), Touched(a), body);
    RunRestores(st, ClusterSetup(deployment, a, w, st), Touched(a), body);
  }

  /** What the body sees: the credentials file variable pointing at the key
      file, or the three role variables holding the assumed role's credentials
      (session name `registry` or `cluster`). */
  lemma {:induction false} BodySeesCredentials(deployment: string, a: AwsArgs, w: World, st: State, body: Body)
    ensures var o := RegistryAuth(deployment, a, w, st, body);
            o.entered.Some? ==> CredentialsActive(deployment, a, w, "registry", o.entered.value)
    ensures var o := ClusterAuth(deployment, a, w, st, body);
            o.entered.Some? ==> CredentialsActive(deployment, a, w, "cluster", o.entered.value)
  {
    SetupsActive(deployment, a, w, st);
    EnteredAfterSetup(st, RegistrySetup(deployment, a, w, st), body);
    EnteredAfterSetup(st, ClusterSetup(deployment, a, w, st), body);
  }

  /** The body runs exactly when setup completed, on the environment it left. */
  lemma EnteredAfterSetup(st: State, s: Setup, body: Body)
    ensures Run(st, s, body).entered.Some? <==> s.Acquired? && s.failure.None?
    ensures Run(st, s, body).entered.Some? ==> Run(st, s, body).entered == Some(s.st.env)
  {
  }

  lemma SetupsActive(deployment: string, a: AwsArgs, w: World, st: State)
    ensures var s := RegistrySetup(deployment, a, w, st);
            s.Acquired? && s.failure.None? ==> CredentialsActive(deployment, a, w, "registry", s.st.env)
    ensures var s := ClusterSetup(deployment, a, w, st);
            s.Acquired? && s.failure.None? ==> CredentialsActive(deployment, a, w, "cluster", s.st.env)
  {
    RegistrySetupActive(deployment, a, w, st);
    ClusterSetupActive(deployment, a, w, st);
  }

  lemma RegistrySetupActive(deployment: string, a: AwsArgs, w: World, st: State)
    ensures var s := RegistrySetup(deployment, a, w, st);
            s.Acquired? && s.failure.None? ==> CredentialsActive(deployment, a, w, "registry", s.st.env)
  {
    var s := RegistrySetup(deployment, a, w, st);
    if Given(a.serviceKey) {
      if s.Acquired? && s.failure.None? {
        assert s.st.env == st.env[CredentialsFileVar := SecretPath(deployment, a.serviceKey.value)];
      }
    } else if Given(a.roleArn) && w.sts(RoleRequest(a.roleArn.value, "registry")).Some? {
      RoleValuesSet(st, a.roleArn.value, "registry", w);
    }
  }

  lemma ClusterSetupActive(deployment: string, a: AwsArgs, w: World, st: State)
    ensures var s := ClusterSetup(deployment, a, w, st);
            s.Acquired? && s.failure.None? ==> CredentialsActive(deployment, a, w, "cluster", s.st.env)
  {
    if !Given(a.serviceKey) && Given(a.roleArn) && w.sts(RoleRequest(a.roleArn.value, "cluster")).Some? {
      RoleValuesSet(st, a.roleArn.value, "cluster", w);
    }
  }

  lemma RoleValuesSet(st: State, roleArn: string, sessionName: string, w: World)
    requires w.sts(RoleRequest(roleArn, sessionName)).Some?
    ensures var c := w.sts(RoleRequest(roleArn, sessionName)).value;
            var env := AssignAll(st.env, RoleVars, RoleValues(c));
            && Lookup(env, AccessKeyIdVar) == Some(c.accessKeyId)
            && Lookup(env, SecretAccessKeyVar) == Some(c.secretAccessKey)
            && Lookup(env, SessionTokenVar) == Some(c.sessionToken)
  {
    RoleVarsFacts();
    var c := w.sts(RoleRequest(roleArn, sessionName)).value;
    var env := AssignAll(st.env, RoleVars, RoleValues(c));
    assert Lookup(env, RoleVars[0]) == Some(RoleValues(c)[0]);
    assert Lookup(env, RoleVars[1]) == Some(RoleValues(c)[1]);
    assert Lookup(env, RoleVars[2]) == Some(RoleValues(c)[2]);
  }

  /** The credentials a strategy exports are active in `env`. */
  predicate CredentialsActive(deployment: string, a: AwsArgs, w: World, sessionName: string, env: Env)
  {
    if Given(a.serviceKey) then
      Lookup(env, CredentialsFileVar) == Some(SecretPath(deployment, a.serviceKey.value))
    else
      && a.roleArn.Some?
      && var answer := w.sts(RoleRequest(a.roleArn.value, sessionName));
      && answer.Some?
      && Lookup(env, AccessKeyIdVar) == Some(answer.value.accessKeyId)
      && Lookup(env, SecretAccessKeyVar) == Some(answer.value.secretAccessKey)
      && Lookup(env, SessionTokenVar) == Some(answer.value.sessionToken)
  }

  /** On the two paths that raise before the snapshot is taken (a missing key
      file, a failing role assumption) nothing was mutated, but the `finally`
      clause reads the unassigned snapshot local, so the exception that leaves
      the statement is an UnboundLocalError rather than the original one. */
  lemma {:induction false} EarlyFailureRaisesUnbound(deployment: string, a: AwsArgs, w: World, st: State, body: Body)
    ensures Given(a.serviceKey) && SecretPath(deployment, a.serviceKey.value) !in w.files ==>
              RegistryAuth(deployment, a, w, st, body) == Raise(st, [], UnboundLocal("original_credential_file_loc"))
    ensures !Given(a.serviceKey) && Given(a.roleArn) && w.sts(RoleRequest(a.roleArn.value, "registry")).None? ==>
              RegistryAuth(deployment, a, w, st, body) == Raise(st, [], UnboundLocal("original_access_key_id"))
    ensures !Given(a.serviceKey) && Given(a.roleArn) && w.sts(RoleRequest(a.roleArn.value, "cluster")).None? ==>
              ClusterAuth(deployment, a, w, st, body) == Raise(st, [], UnboundLocal("original_access_key_id"))
  {
  }

  /** When setup raises after the snapshots (an unreadable or unmergeable
      docker configuration, a failing `aws eks update-kubeconfig`), the
      `finally` clause undoes the assignments exactly and the original
      exception leaves the statement. */
  lemma {:induction false} LateFailureRollsBack(deployment: string, a: AwsArgs, w: World, st: State, body: Body)
    ensures var s := RegistrySetup(deployment, a, w, st);
            var o := RegistryAuth(deployment, a, w, st, body);
            s.Acquired? && s.frame.Bound? && s.failure.Some? ==>
              o.st.env == st.env && o.st.docker == st.docker && o.exit == Raised(s.failure.value) && o.entered.None?
    ensures var s := ClusterSetup(deployment, a, w, st);
            var o := ClusterAuth(deployment, a, w, st, body);
            s.Acquired? && s.frame.Bound? && s.failure.Some? ==>
              o.st.env == st.env && o.exit == Raised(s.failure.value) && o.entered.None?
  {
    SetupsSound(deployment, a, w, st);
    var keys := Touched(a);
    var s1 := RegistrySetup(deployment, a, w, st);
    var s2 := ClusterSetup(deployment, a, w, st);
    if s1.Acquired? && s1.frame.Bound? && s1.failure.Some? {
      var noBody := (e: Env) => BodyEnd(e, Normal);
      assert Run(st, s1, body) == Run(st, s1, noBody);
      RunRestores(st, s1, keys, noBody);
      RestoredWithoutBody(RegistryAuth(deployment, a, w, st, body), st, keys, body);
    }
    if s2.Acquired? && s2.frame.Bound? && s2.failure.Some? {
      var noBody := (e: Env) => BodyEnd(e, Normal);
      assert Run(st, s2, body) == Run(st, s2, noBody);
      RunRestores(st, s2, keys, noBody);
      RestoredWithoutBody(ClusterAuth(deployment, a, w, st, body), st, keys, body);
    }
  }

  /** When the body never ran, restoring the touched variables restores the
      whole environment. */
  lemma RestoredWithoutBody(o: Outcome, st: State, keys: set<string>, body: Body)
    requires o.entered.None?
    requires Restores(o, st, keys, body)
    ensures o.st.env == st.env
  {
    forall k ensures Lookup(o.st.env, k) == Lookup(st.env, k) {
      if k !in keys {
        assert Lookup(o.st.env - keys, k) == Lookup(st.env - keys, k);
      }
    }
    LookupExtensional(o.st.env, st.env);
  }

  /** The docker configuration change is not undone: after the registry
      service-key path ran the body, the configuration holds the ECR helper
      entry for `{project}.dkr.ecr.{zone}.amazonaws.com`, merged into what was
      there. */
  lemma {:induction false} HelperEntryPersists(deployment: string, a: AwsArgs, w: World, st: State, body: Body)
    requires Given(a.serviceKey)
    ensures var o := RegistryAuth(deployment, a, w, st, body);
            o.entered.Some? ==>
              && Load(st.docker).Ok?
              && AddCredHelper(Load(st.docker).value, EcrRegistry(a.project, a.zone)).Ok?
              && o.st.docker == Present(AddCredHelper(Load(st.docker).value, EcrRegistry(a.project, a.zone)).value)
              && HelpersOf(o.st.docker.doc)[EcrRegistry(a.project, a.zone)] == JString(EcrHelper)
  {
  }

  /** If the body unsets a variable the branch touched, restoring it raises a
      KeyError, which replaces whatever the body ended with. */
  lemma {:induction false} RemovedVariableRaises(deployment: string, a: AwsArgs, w: World, st: State, body: Body)
    ensures var o := RegistryAuth(deployment, a, w, st, body);
            o.entered.Some? && !(Touched(a) <= body(o.entered.value).env.Keys) ==>
              o.exit.Raised? && o.exit.error.KeyMissing? && o.exit.error.key in Touched(a)
    ensures var o := ClusterAuth(deployment, a, w, st, body);
            o.entered.Some? && !(Touched(a) <= body(o.entered.value).env.Keys) ==>
              o.exit.Raised? && o.exit.error.KeyMissing? && o.exit.error.key in Touched(a)
  {
    SetupsSound(deployment, a, w, st);
    RemovedVariableRaisesRun(st, RegistrySetup(deployment, a, w, st), Touched(a), body);
    RemovedVariableRaisesRun(st, ClusterSetup(deployment, a, w, st), Touched(a), body);
  }

  lemma RemovedVariableRaisesRun(st: State, s: Setup, keys: set<string>, body: Body)
    requires SoundSetup(st, s, keys)
    ensures var o := Run(st, s, body);
            o.entered.Some? && !(keys <= body(o.entered.value).env.Keys) ==>
              o.exit.Raised? && o.exit.error.KeyMissing? && o.exit.error.key in keys
  {
    var o := Run(st, s, body);
    if o.entered.Some? && !(keys <= body(o.entered.value).env.Keys) {
      var saved := s.frame.saved;
      var during := body(s.st.env).env;
      RestoreAllRestores(during, saved);
      var t := RestoreAll(during, saved);
      var x :| x in saved && t.failure == Some(KeyMissing(x.key));
      assert x.key in KeysOf(saved);
    }
  }

  /** No command runs after one that failed, and the failure is reported. */
  lemma {:induction false} StrategiesStopAtFailure(deployment: string, a: AwsArgs, w: World, st: State, body: Body)
    ensures StopsAtFailure(RegistryAuth(deployment, a, w, st, body), w.tools)
    ensures StopsAtFailure(ClusterAuth(deployment, a, w, st, body), w.tools)
  {
    SetupsSound(deployment, a, w, st);
    var s1 := RegistrySetup(deployment, a, w, st);
    var s2 := ClusterSetup(deployment, a, w, st);
    SetupCommands(deployment, a, w, st);
    RunStopsAtFailure(st, s1, Touched(a), body, w.tools);
    RunStopsAtFailure(st, s2, Touched(a), body, w.tools);
  }

  /** The registry setup runs no command; the cluster setup runs
      `aws eks update-kubeconfig` once the credentials are active, and raises
      its failure. */
  lemma SetupCommands(deployment: string, a: AwsArgs, w: World, st: State)
    ensures var s := RegistrySetup(deployment, a, w, st);
            && (s.Refused? ==> !s.error.ToolFailed?)
            && (s.Acquired? ==> s.cmds == [] && (s.failure.Some? ==> !s.failure.value.ToolFailed?))
    ensures var s := ClusterSetup(deployment, a, w, st);
            var update := AwsEksUpdateKubeconfig(a.cluster, a.zone);
            && (s.Refused? ==> !s.error.ToolFailed?)
            && (s.Acquired? ==> s.cmds == [] || s.cmds == [update])
            && (s.Acquired? && s.cmds == [update] ==> (s.failure.None? <==> w.tools(update)))
            && (s.Acquired? && s.cmds == [update] && s.failure.Some? ==> s.failure.value == ToolFailed(update))
            && (s.Acquired? && s.cmds == [] ==> s.failure.Some? && !s.failure.value.ToolFailed?)
            && (s.Acquired? && s.cmds == [update] ==> CredentialsActive(deployment, a, w, "cluster", s.st.env))
  {
    RegistrySetupCommands(deployment, a, w, st);
    ClusterSetupCommands(deployment, a, w, st);
  }

  lemma RegistrySetupCommands(deployment: string, a: AwsArgs, w: World, st: State)
    ensures var s := RegistrySetup(deployment, a, w, st);
            && (s.Refused? ==> !s.error.ToolFailed?)
            && (s.Acquired? ==> s.cmds == [] && (s.failure.Some? ==> !s.failure.value.ToolFailed?))
  {
    if Given(a.serviceKey) && SecretPath(deployment, a.serviceKey.value) in w.files && Load(st.docker).Ok? {
      var merged := AddCredHelper(Load(st.docker).value, EcrRegistry(a.project, a.zone));
      assert merged.Err? ==> !merged.error.ToolFailed?;
    }
  }

  lemma ClusterSetupCommands(deployment: string, a: AwsArgs, w: World, st: State)
    ensures var s := ClusterSetup(deployment, a, w, st);
            var update := AwsEksUpdateKubeconfig(a.cluster, a.zone);
            && (s.Refused? ==> !s.error.ToolFailed?)
            && (s.Acquired? ==> s.cmds == [] || s.cmds == [update])
            && (s.Acquired? && s.cmds == [update] ==> (s.failure.None? <==> w.tools(update)))
            && (s.Acquired? && s.cmds == [update] && s.failure.Some? ==> s.failure.value == ToolFailed(update))
            && (s.Acquired? && s.cmds == [] ==> s.failure.Some? && !s.failure.value.ToolFailed?)
            && (s.Acquired? && s.cmds == [update] ==> CredentialsActive(deployment, a, w, "cluster", s.st.env))
  {
    var update := AwsEksUpdateKubeconfig(a.cluster, a.zone);
    if Given(a.serviceKey) || Given(a.roleArn) {
      var inner :=
        if Given(a.serviceKey) then
          var path := SecretPath(deployment, a.serviceKey.value);
          Acquired(st.(env := st.env[CredentialsFileVar := path]), [], Bound(KeyFileSaved(st)), None)
        else RoleSetup(a.roleArn.value, "cluster", w, st);
      assert inner.Acquired? && inner.cmds == [];
      assert inner.failure.Some? ==> inner.failure.value.AssumeRoleFailed?;
    }
  }
}
