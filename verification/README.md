# hubploy authentication helpers, modelled in Dafny

This project models `hubploy/auth.py`, the module through which hubploy
authenticates to container registries and Kubernetes clusters before building
images or deploying. Three functions are `@contextmanager` context managers:
`registry_auth`, `cluster_auth` and `decrypt_file` (hubploy/auth.py:24, 197,
369). The two entry points delegate with `yield from` to one of six provider
strategies. Those strategies are plain generators, not context managers. Before
its `yield`, a strategy exports credentials: environment variables, a docker
configuration entry, or a cloud CLI login. Only three functions have a
`finally` clause that puts environment variables back:
- `registry_auth_aws` (hubploy/auth.py:145);
- `cluster_auth_aws` (hubploy/auth.py:308);
- `cluster_auth`, for `KUBECONFIG` (hubploy/auth.py:230).

The gcloud and Azure strategies restore nothing.

The model covers:

- `unset_env_var` and the snapshot/restore discipline it supports
  (`environ.dfy`). That discipline is a snapshot taken before an assignment,
  then a restoration in a `finally` clause.
- The path helpers the module relies on, `os.path.join` and
  `os.path.splitext` (`paths.dfy`).
- `decrypt_file`: how it classifies a secret file as plain or sops-encrypted,
  and which path it yields (`decrypt.dfy`).
- The merge of the ECR credential helper into `~/.docker/config.json`
  (`docker_config.dfy`).
- A generic scope (`scope.dfy`). It covers a setup phase, the body of the
  `with` statement as an arbitrary environment transformer, and a `finally`
  clause. The AWS strategies and `cluster_auth` run through it. The gcloud
  and Azure strategies have no `finally`: they run commands, then either
  raise or enter the body (`Scope.Yield`). The module also holds the facts
  that make restoration compose when one scope is nested inside another.
- The six provider strategies (`gcloud.dfy`, `aws.dfy`, `azure.dfy`). AWS has
  two credential branches: a shared credentials file, or an assumed STS role.
- The two entry points, `registry_auth` and `cluster_auth` (`orchestrator.dfy`).
  This covers the push/check fast path, provider dispatch, binding a
  parameter bag to a strategy's keyword parameters, and the `KUBECONFIG`
  redirection that `cluster_auth` wraps around every strategy.

Everything outside the process is a parameter, `Scope.World`:

- the secret files and what the YAML/JSON loaders make of them;
- whether each external command (`gcloud`, `aws`, `az`, `sops`) exits with
  status 0;
- what STS `assume_role` answers;
- the names of the temporary files.

The process state the helpers mutate is `Scope.State`: the environment and
the docker configuration file. One use of a helper is an `Scope.Outcome`. It
records the final state, the commands run in order, the environment the body
was entered with (when it was), and how the statement ended.

The model follows the code as written, including these behaviours of
`hubploy/auth.py` that are easy to miss when reading it:

- A deployment without an `images.registry` (with `push` or `check_registry`
  set) or a `cluster` section makes the generator end without yielding
  (lines 34 and 204 have no `else`).
  `contextlib` turns that into a RuntimeError (`Common.Error.DidNotYield`).
  It is not a silent no-op.
- On the two AWS paths that raise before taking their snapshots, the
  `finally` clause reads a snapshot local that was never assigned. Those
  paths are a missing service-key file (registry, lines 99-101) and a failing
  `assume_role` (lines 128-131 and 287-290). The exception that leaves the statement is therefore an
  UnboundLocalError, which hides the original one. The environment is
  untouched on those paths.
- The `finally` clause restores the three role variables in the order they
  were set, not in reverse (lines 151-153 and 314-316). `Environ.RestoreOrderIrrelevant` shows that the
  order makes no difference for distinct variables.
- The Azure strategies read their auth file with the YAML loader directly
  (lines 176-178 and 338-340).
  They do not go through `decrypt_file`, so an encrypted auth file is not
  decrypted.
- The ECR credential helper entry written to `~/.docker/config.json` stays
  there after the scope ends: the `finally` clause (lines 145-153) does not
  touch the file.
- The strategies are called with `**bag`. A bag that lacks a parameter
  without a default, or that has an unknown key, raises a TypeError before
  the strategy runs. `Orchestrator.AwsBagWithoutProject` shows one case: a
  `cluster.aws` bag with `cluster`, `zone` and `role_arn` but no `project`.
- A missing AWS credential source raises a bare `Exception`
  (`Common.Error.NoAwsCredentials`, lines 87-88 and 267-268).

## Model

| member | source | states |
|---|---|---|
| Environ.UnsetEnvVar | hubploy/auth.py:359-367 | Succeeds exactly when the variable is set, else raises KeyError for it. On success the variable reads as the snapshot (present with that value, or absent) and every other variable is unchanged. |
| Environ.SetEnvVar | hubploy/auth.py:103-106 | Taking the snapshot and then assigning makes the variable read the new value and leaves every other variable unchanged. `Environ.SingleScopeRoundTrip` shows that restoring the snapshot undoes it. |
| Environ.SingleScopeRestores | hubploy/auth.py:359-367 | Snapshot, assignment, any work that keeps the variable set, then restoration: the variable reads as before, and the rest of the environment is what the work left. |
| Environ.SingleScopeRoundTrip | hubploy/auth.py:359-367 | Restoring right after an assignment gives back exactly the original environment, whether the variable was set or unset before. |
| Environ.Capture | hubploy/auth.py:134-136 | The snapshot of a list of variables records, for each in order, its value or its absence. |
| Environ.AssignAll | hubploy/auth.py:138-141 | Setting distinct variables to values makes each read its value and leaves every other variable unchanged. |
| Environ.RestoreAll | hubploy/auth.py:150-153 | Successive restorations change only the saved variables. A failure is the KeyError of one of them. |
| Environ.RestoreAllRestores | hubploy/auth.py:150-153 | For distinct variables: the restorations succeed exactly when all are still set, and then each reads as its snapshot. |
| Environ.RestoreOrderIrrelevant | hubploy/auth.py:150-153 | When every saved variable is set, restoring the same distinct snapshots in any other order gives the same environment and the same success. |
| Environ.Close | hubploy/auth.py:145-153 | A `finally` clause whose snapshot local was never assigned raises UnboundLocalError and changes nothing. Otherwise it changes only the saved variables. |
| Environ.CaptureAssignRestore | hubploy/auth.py:132-153 | Snapshot, assign, work that keeps the variables set, restore: the variables read as before, and the rest is what the work left. |
| Paths.JoinShape | hubploy/auth.py:63-65 | An absolute second component is the whole result. Otherwise the result is the first component, then one `/` exactly when the first is non-empty and does not end with one, then the second. |
| Paths.SecretPathShape | hubploy/auth.py:95-97 | For a deployment name that is one path component and a relative secret name, the secret path is `deployments/<deployment>/secrets/<name>`. |
| Paths.ExtensionOfJoin | hubploy/auth.py:63-66 | Joining any directory with a name that has no `/` gives a path whose extension is the name's own. |
| Paths.SecretPathExtension | hubploy/auth.py:240-243 | The secret path `decrypt_file` receives has the extension of the configured secret name, so the name alone decides how it is read. |
| Paths.Extension | hubploy/auth.py:381 | The extension is a suffix of the path. It is empty, or a dot followed by neither dots nor separators. |
| Paths.ExtensionOfSuffix | hubploy/auth.py:381 | A dotted suffix without further dots or separators, after a stem not ending in a dot or separator, is exactly the path's extension. |
| Paths.LeadingDotsHaveNoExtension | hubploy/auth.py:381 | A name of one or more leading dots followed by text with no dot or separator (`.yaml`, `..`) has no extension, so such a secret file matches neither `.yaml` nor `.json`. |
| Paths.ExtensionAfterDottedStem | hubploy/auth.py:381 | Once the stem has any character other than a dot, dots at its end do not matter: the last dotted suffix is the extension (`a..yaml` gives `.yaml`). |
| Paths.SplitextCases | hubploy/auth.py:381 | `.yaml` has the empty extension and `a..yaml` has `.yaml`. |
| Decrypt.DecryptFile | hubploy/auth.py:369-407 | A missing file raises FileNotFoundError, and only a `.yaml`/`.yml`/`.json` file ever yields. It yields the temporary file exactly for a mapping carrying `sops` and the original path otherwise. Sops decryption yields exactly when sops succeeds, and a sops failure is the only command failure. |
| Decrypt.YieldsOriginalExactlyWhenPlain | hubploy/auth.py:383-398 | The original path comes back if and only if the file exists, has a parsed extension, and either fails to parse or parses to a mapping without `sops`. |
| Decrypt.UnstructuredNeverYields | hubploy/auth.py:380-396 | Any other extension raises UnboundLocalError on `encrypted_data`, whatever the contents. |
| Decrypt.DecisionByName | hubploy/auth.py:381-389 | Files named `<stem>.yaml`, `<stem>.yml` and `<stem>.json` are parsed. |
| Decrypt.TextFileNeverYields | hubploy/auth.py:380-396 | A file named `<stem>.txt` raises UnboundLocalError on `encrypted_data`, whatever it holds. |
| DockerConfig.ReloadAfterMerge | hubploy/auth.py:113-121 | The configuration written back after the merge reads as the merged document, and merging the same registry into the rewritten file leaves it unchanged, so repeated runs reach a fixed point. |
| DockerConfig.AddCredHelper | hubploy/auth.py:119 | The merge succeeds exactly for an object whose `credHelpers` (if any) is an object. It keeps every other top-level key and sets exactly the one helper entry to `ecr-login`. |
| DockerConfig.MergeKeepsOtherEntries | hubploy/auth.py:119 | The helper entry of every other registry is unchanged. |
| DockerConfig.MergeIdempotent | hubploy/auth.py:119 | Merging the same registry a second time changes nothing. |
| DockerConfig.MergeIntoMissingFile | hubploy/auth.py:113-121 | A missing file becomes an object holding only the one helper entry. |
| Scope.FinallyEnding | hubploy/auth.py:145-153 | When every saved variable is still set, the `finally` clause restores their snapshots and the statement ends as before the clause. Otherwise the KeyError of a saved variable replaces that ending. An unassigned snapshot local raises UnboundLocalError and changes nothing. Commands, entry and docker file are never affected. |
| Scope.FinallyRestores | hubploy/auth.py:209-231 | An outer scope with sound snapshots around an inner scope over disjoint variables: the outer variables read as before the outer setup, the inner ones as the inner scope left them, nothing else changes except through the body, and the ending is the inner one. |
| Scope.Run | hubploy/auth.py:90-153 | A setup that raised before the `try` is the whole outcome. Otherwise the body runs exactly when setup completed, on the environment setup left, after exactly the setup's commands. |
| Scope.RunConfined | hubploy/auth.py:90-153 | A sound setup with its `finally` clause changes nothing outside its variables except through the body, whatever the body does. |
| Scope.RunRestores | hubploy/auth.py:90-153 | With a body that keeps the variables set, they read afterwards as before the call, and the statement ends as setup or the body did. |
| Scope.RunStopsAtFailure | hubploy/auth.py:270-316 | No command follows a failed one, and a command failure is the exception that leaves the statement. |
| Scope.AndThenStops | hubploy/auth.py:66-75 | `check_call` in sequence keeps the invariant that every command but the last succeeded and a failing command is the exception that stopped the sequence. |
| Scope.YieldConfined | hubploy/auth.py:57-77 | A strategy that only runs commands leaves every variable and the docker file to the body, and stops at the first failing command. |
| Aws.SetupsSound | hubploy/auth.py:80-141 | Both AWS setups snapshot exactly the variables their branch sets, before setting them, or raise having changed and run nothing. |
| Aws.RoleSetup | hubploy/auth.py:124-141 | The role branch runs no command. It completes exactly when STS answers, and then the three variables read the returned credentials. A failing STS call leaves the state unchanged with the snapshot local unassigned. |
| Aws.RegistrySetup | hubploy/auth.py:87-141 | It raises before the `try` exactly when neither a service key nor a role is given. It completes exactly when the key file exists and the docker configuration loads and merges, or, without a service key, when STS answers for the role. Once complete, the branch's credentials are active. A failed load or merge of the docker configuration leaves the docker file untouched. |
| Aws.ClusterSetup | hubploy/auth.py:267-304 | It raises before the `try` exactly when neither a service key nor a role is given. It completes exactly when a service key is given or STS answers for the role, and `aws eks update-kubeconfig` succeeds. The command runs only once the credentials are active. |
| Aws.RegistryAuth | hubploy/auth.py:80-153 | The body runs exactly when the registry setup completes, with no command run and the branch's credentials active. |
| Aws.ClusterAuth | hubploy/auth.py:260-316 | The body runs exactly when the cluster setup completes, after exactly one `aws eks update-kubeconfig` and with the branch's credentials active. |
| Aws.NeitherGivenRefused | hubploy/auth.py:87-88 | Without a service key or a role, both strategies raise before their `try`: nothing changes, nothing runs and the body does not run. |
| Aws.ServiceKeyWins | hubploy/auth.py:92-123 | With a service key given, STS is never consulted even when a role is also given, and the role variables are not touched. |
| Aws.RegistryConfined | hubploy/auth.py:80-153 | `registry_auth_aws` changes no variable outside the four AWS ones except through the body. The docker file changes only on the service-key path, and only when the body is entered: a failed load or merge leaves it untouched. |
| Aws.ClusterConfined | hubploy/auth.py:260-316 | `cluster_auth_aws` changes no variable outside the four AWS ones except through the body, and never changes the docker file. |
| Aws.StrategiesRestore | hubploy/auth.py:80-153 | When the body keeps them set, the variables the branch touched read afterwards as before the call, whether the body returned or raised. The statement ends as the body did. |
| Aws.BodySeesCredentials | hubploy/auth.py:103-141 | The body runs with the credentials file variable on the key file, or with the three role credentials STS returned for session `registry` / `cluster`. |
| Aws.SetupsActive | hubploy/auth.py:281-299 | A setup that completed has the branch's credentials active. |
| Aws.RoleValuesSet | hubploy/auth.py:138-141 | Assigning the role credentials makes the three variables read the access key id, secret key and session token. |
| Aws.EarlyFailureRaisesUnbound | hubploy/auth.py:99-101 | A missing key file or a failing role assumption leaves everything unchanged and ends with UnboundLocalError on the unassigned snapshot local. |
| Aws.LateFailureRollsBack | hubploy/auth.py:113-121 | A failure after the snapshots restores the environment exactly, leaves the docker file untouched and re-raises the original exception. |
| Aws.HelperEntryPersists | hubploy/auth.py:110-121 | After the body ran on the registry service-key path, the docker file holds the merged configuration with the ECR helper entry for the registry. |
| Aws.RemovedVariableRaises | hubploy/auth.py:359-367 | A body that unsets a touched variable makes the `finally` clause raise KeyError for a touched variable. |
| Aws.StrategiesStopAtFailure | hubploy/auth.py:301-304 | No command follows a failed one, and a failing `aws eks update-kubeconfig` is the exception that leaves the statement. |
| Aws.SetupCommands | hubploy/auth.py:301-304 | The registry setup runs no command. The cluster setup runs `aws eks update-kubeconfig --name <cluster> --region <zone>` only when the branch's credentials are active, and its failure is the exception raised. |
| Aws.RoleSetupSound | hubploy/auth.py:123-141 | The role branch snapshots the three role variables before setting them, or raises having changed nothing. |
| Aws.KeyFileFrameSound | hubploy/auth.py:103-106 | The service-key branch snapshots the credentials file variable before pointing it at the key file. |
| Gcloud.Activate | hubploy/auth.py:63-71 | Decrypts the key file when it is sops-encrypted, then activates the service account with the file `decrypt_file` yielded. Stops at the first failure. When `decrypt_file` itself raises (a missing file, an unsupported extension), no command runs. |
| Gcloud.RegistryAuth | hubploy/auth.py:57-77 | No variable change except through the body, and it stops at the first failing command. The body runs exactly when the key activation and `gcloud auth configure-docker` both succeed, after exactly those commands. What `configure-docker` writes to the docker configuration is not modelled (see Left out). |
| Gcloud.ClusterAuth | hubploy/auth.py:234-257 | The same, with `gcloud container clusters --zone --project get-credentials <cluster>` in place of `configure-docker`. |
| Azure.ReadPrincipal | hubploy/auth.py:175-178 | The auth file is read directly. It gives a principal exactly when it exists and parses to a mapping with `appId`, `tenant` and `password`. Its failures are never command failures. |
| Azure.Login | hubploy/auth.py:180-186 | When the auth file cannot be read, its error is raised and no command runs. Otherwise `az login --service-principal` runs with exactly the file's credentials, and the step succeeds exactly when that command does. |
| Azure.RegistryAuth | hubploy/auth.py:156-194 | No variable change except through the body, and it stops at the first failing command. The body runs exactly when the auth file is read and both `az login` and `az acr login --name <registry>` succeed, after exactly those two commands. What `az acr login` writes to the docker configuration is not modelled (see Left out). |
| Azure.ClusterAuth | hubploy/auth.py:318-357 | The same, with `az aks get-credentials --name <cluster> --resource-group <group>` in place of `az acr login`. |
| Orchestrator.SelectProvider | hubploy/auth.py:36-51 | Each of `gcloud`, `aws`, `azure` selects its provider, in both directions, and the selected provider's bag is the one named by the tag. Any other tag, or none, is a ValueError naming it. |
| Orchestrator.RegistryDispatch | hubploy/auth.py:36-51 | A `gcloud`, `aws` or `azure` tag whose bag binds runs exactly that provider's registry strategy with the bag's values as keyword arguments. An unknown tag, a missing bag or one that does not bind raises with no effect. |
| Orchestrator.ClusterDispatch | hubploy/auth.py:215-229 | The same for the cluster strategies. |
| Orchestrator.GcloudRegistrySelected | hubploy/auth.py:37-40 | A registry section tagged `gcloud` with a bag of exactly `project` and `service_key` runs `registry_auth_gcloud` on those two values. |
| Orchestrator.GcloudClusterSelected | hubploy/auth.py:215-218 | A cluster section tagged `gcloud` with a bag of exactly `project`, `cluster`, `zone` and `service_key` runs `cluster_auth_gcloud` on those four values. |
| Orchestrator.RegistryAuth | hubploy/auth.py:24-55 | Without `push` or `check_registry` the body runs at once with no command. Otherwise a missing configuration or registry section raises with no effect, and a present one is dispatched by its provider tag. |
| Orchestrator.ClusterAuth | hubploy/auth.py:197-231 | A missing configuration or cluster section raises with no effect. Otherwise the body runs exactly when the selected strategy, started with `KUBECONFIG` on the temporary file, runs it, after the same commands. |
| Orchestrator.RegistryDispatchSound | hubploy/auth.py:34-51 | Any registry dispatch changes only the AWS variables outside the body and stops at the first failed command. With a body that keeps them set, the touched ones are restored and the ending is the body's. |
| Orchestrator.ClusterDispatchSound | hubploy/auth.py:215-229 | The same for the cluster strategies, and the docker file is never changed. |
| Orchestrator.RegistryFastPath | hubploy/auth.py:30-55 | Without `push` or `check_registry` the body runs at once on the unchanged environment. No command runs, and neither the configuration nor the world is consulted. |
| Orchestrator.MissingSectionDoesNotYield | hubploy/auth.py:30-55 | A missing registry or cluster section raises the non-yielding generator's RuntimeError and changes nothing. |
| Orchestrator.UnknownProviderRaises | hubploy/auth.py:49-51 | An unknown tag raises ValueError naming it with zero effect. In `cluster_auth` the `KUBECONFIG` redirection is undone exactly. |
| Orchestrator.RegistryAuthSound | hubploy/auth.py:24-55 | Over every input, `registry_auth` changes only the AWS variables outside the body and stops at the first failed command. With a body that keeps them set, the touched ones are restored. |
| Orchestrator.ClusterAuthRestoresKubeconfig | hubploy/auth.py:209-231 | On every path, `KUBECONFIG` reads afterwards as before the call whenever the body keeps it set. Otherwise only the AWS variables change outside the body, and commands stop at the first failure. |
| Orchestrator.ScopedDispatchSound | hubploy/auth.py:212-231 | The `try`/`finally` around any provider dispatch restores `KUBECONFIG` and is confined to it and the AWS variables. |
| Orchestrator.ClusterAuthRestores | hubploy/auth.py:209-231 | The nested scopes: `KUBECONFIG` outside, the AWS branch's variables inside, all read as before the call. The statement ends as the body did. |
| Orchestrator.ClusterBodySeesTemporaryKubeconfig | hubploy/auth.py:213 | The body of `cluster_auth` always runs with `KUBECONFIG` naming the temporary file. |
| Orchestrator.AwsBagWithoutProject | hubploy/auth.py:219-222 | A `cluster.aws` bag without `project` raises TypeError before any credential is exported, and the environment is exactly restored. |
| Orchestrator.AwsRoleScenario | hubploy/auth.py:209-231 | An assumed role for an EKS cluster: the body sees the temporary `KUBECONFIG` and the three role credentials after exactly one `aws eks update-kubeconfig`. All four variables read as before afterwards, and the ending is the body's. |

## Left out

- Subprocesses are not run. Each command is a value in `Common.Command`, and its success is an input.
- The STS client (boto3) is not modelled. `assume_role` is an input function from role request to optional credentials.
- File contents, the YAML and JSON loaders and the docker configuration's JSON are abstracted. A file is one `Decrypt.ParseOutcome`, the same whichever loader reads it. A document is a top-level mapping or a value that `in` and `[]` reject. YAML strings, lists and other documents that support `in` are not modelled.
- `get_config` is not part of this model. Its result is an input, and its failure is one error, `Common.Error.ConfigUnavailable`.
- Temporary files are not created or deleted; their names are inputs. The deletion of the sops output and of the temporary kubeconfig on exit is not modelled.
- `os.path.abspath`, `os.path.expanduser` and `os.makedirs` are not modelled. The activated key file is the path `decrypt_file` yielded, and the docker configuration sits at a fixed `~/.docker/config.json`.
- Docker's and the cloud CLIs' own state (the result of `configure-docker`, `az acr login`, kubeconfig contents) is not modelled. Only the command sequence is.
- Gcloud.RegistryAuth, Azure.RegistryAuth: `gcloud auth configure-docker` and `az acr login` write registry credentials into the docker configuration, which the docstring at line 61 calls a change of global machine state. The model treats commands as having no effect on the process state, so these writes are absent. The contracts' `o.st.docker == st.docker` says only that the strategy's own Python code does not write the file.
- Decrypt.DecryptFile: the closing of the input file before the `sops` call and the generator's cleanup after the body are not modelled. The function returns what is yielded.
- Azure.ReadPrincipal: values in the auth file are strings. A principal field holding another YAML type, which `check_call` would reject, is not modelled.
- Paths.Join: only the two-argument form, with POSIX separators.
- Concurrency between helpers (the environment is process-wide) is not modelled. Each use runs alone.
