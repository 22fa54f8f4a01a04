/** `registry_auth_gcloud` and `cluster_auth_gcloud`: activate a service
    account from a possibly sops-encrypted key file, then configure docker or
    fetch the cluster's credentials. Neither touches the process environment. */
module Gcloud {
  import opened Common
  import opened Paths
  import opened Decrypt
  import opened Scope

  /** The file the service account is activated with: the decrypted temporary
      file for an encrypted key, the key file itself otherwise. */
  function KeyFileUsed(path: string, w: World): string
  {
    if Encrypted(path, FileAt(path, w)) then w.decryptTemp else path
  }

  function FileAt(path: string, w: World): Option<ParseOutcome>
  {
    if path in w.files then Some(w.files[path]) else None
  }

  /** The `sops` call `decrypt_file` makes for the key file, if any. */
  function Decrypting(path: string, w: World): seq<Command>
  {
    if Encrypted(path, FileAt(path, w)) then [SopsDecrypt(w.decryptTemp, path)] else []
  }

  /** `with decrypt_file(key) as path: gcloud auth activate-service-account
      --key-file path`. */
  function Activate(deployment: string, serviceKey: string, w: World): (r: Steps)
    ensures StepsStop(r, w.tools)
    ensures r.failure.Some? && !r.failure.value.ToolFailed? ==> r.cmds == []
    ensures var path := SecretPath(deployment, serviceKey);
            r.failure.None? ==> r.cmds == Decrypting(path, w) + [GcloudActivateServiceAccount(KeyFileUsed(path, w))]
  {
    var path := SecretPath(deployment, serviceKey);
    var file := FileAt(path, w);
    var sops := SopsDecrypt(w.decryptTemp, path);
    var decrypting := Decrypting(path, w);
    var resolved := DecryptFile(path, file, w.decryptTemp, w.tools(sops));
    if resolved.Err? then
      assert resolved.error.ToolFailed? ==> decrypting == [sops] && !w.tools(sops);
      assert !resolved.error.ToolFailed? ==> decrypting == [];
      Steps(decrypting, Some(resolved.error))
    else
      var activate := GcloudActivateServiceAccount(resolved.value.path);
      assert decrypting == [] || (decrypting == [sops] && w.tools(sops));
      assert StepsStop(Steps(decrypting, None), w.tools);
      AndThenStops(Steps(decrypting, None), activate, w.tools);
      AndThen(Steps(decrypting, None), activate, w.tools)
  }

  /** `registry_auth_gcloud`. */
  function RegistryAuth(deployment: string, project: string, serviceKey: string,
                        w: World, st: State, body: Body): (o: Outcome)
    ensures Restores(o, st, {}, body) && o.st.docker == st.docker
    ensures StopsAtFailure(o, w.tools)
    ensures var activated := Activate(deployment, serviceKey, w);
            o.entered.Some? <==> activated.failure.None? && w.tools(GcloudConfigureDocker)
    ensures o.entered.Some? ==> o.cmds == Activate(deployment, serviceKey, w).cmds + [GcloudConfigureDocker]
  {
    var activated := Activate(deployment, serviceKey, w);
    ThenYield(st, activated, GcloudConfigureDocker, body, w.tools);
    Yield(st, AndThen(activated, GcloudConfigureDocker, w.tools), body)
  }

  /** `cluster_auth_gcloud`. */
  function ClusterAuth(deployment: string, project: string, cluster: string, zone: string, serviceKey: string,
                       w: World, st: State, body: Body): (o: Outcome)
    ensures Restores(o, st, {}, body) && o.st.docker == st.docker
    ensures StopsAtFailure(o, w.tools)
    ensures var activated := Activate(deployment, serviceKey, w);
            o.entered.Some? <==> activated.failure.None? && w.tools(GcloudGetCredentials(zone, project, cluster))
    ensures o.entered.Some? ==>
              o.cmds == Activate(deployment, serviceKey, w).cmds + [GcloudGetCredentials(zone, project, cluster)]
  {
    var fetch := GcloudGetCredentials(zone, project, cluster);
    var activated := Activate(deployment, serviceKey, w);
    ThenYield(st, activated, fetch, body, w.tools);
    Yield(st, AndThen(activated, fetch, w.tools), body)
  }
}
