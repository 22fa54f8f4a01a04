/** Shared vocabulary of the hubploy authentication model: optional values,
    results, the exceptions the helpers raise, and the external commands they run. */
module Common {

  /** Python's `None` or a value. */
  datatype Option<+T> = None | Some(value: T)

  /** A value, or the exception raised instead of producing it. */
  datatype Result<+T> = Ok(value: T) | Err(error: Error)

  /** An external command (a `subprocess.check_call`), with the arguments that
      distinguish one invocation from another. */
  datatype Command =
    | GcloudActivateServiceAccount(keyFile: string)
    | GcloudConfigureDocker
    | GcloudGetCredentials(zone: string, project: string, cluster: string)
    | AwsEksUpdateKubeconfig(cluster: string, region: string)
    | AzLogin(user: string, tenant: string, password: string)
    | AzAcrLogin(registry: string)
    | AzAksGetCredentials(cluster: string, resourceGroup: string)
    | SopsDecrypt(output: string, input: string)

  /** The exceptions that can leave the authentication helpers. */
  datatype Error =
    | UnknownProvider(provider: Option<string>)  // ValueError naming the provider tag
    | NoAwsCredentials                            // neither service_key nor role_arn was given
    | FileNotFound(path: string)
    | UnboundLocal(name: string)                  // a `finally` clause read a snapshot never taken
    | KeyMissing(key: string)                     // KeyError
    | BadArguments(strategy: string)              // TypeError binding a parameter bag to a strategy
    | NotIterable                                 // TypeError: `in` on a document that is no container
    | NotSubscriptable                            // TypeError: `[]` on a document that is no container
    | Unparseable(path: string)                   // a loader exception that is not caught
    | CredHelpersNotMapping                       // TypeError: `credHelpers` is not an object
    | DockerConfigNotObject                       // AttributeError: the docker config is not an object
    | ToolFailed(command: Command)                // CalledProcessError
    | AssumeRoleFailed(roleArn: string)           // the STS call raised
    | DidNotYield                                 // RuntimeError from contextlib: the generator never yielded
    | ConfigUnavailable                           // the configuration loader raised
    | WorkFailed(code: int)                       // an exception raised by the body of the `with` statement

  /** Temporary AWS credentials, as the STS role assumption returns them. They
      live here rather than in the AWS module because the STS service is part
      of the outside world every helper is given. */
  datatype Credentials = Credentials(accessKeyId: string, secretAccessKey: string, sessionToken: string)

  /** One `assume_role` call. */
  datatype RoleRequest = RoleRequest(roleArn: string, sessionName: string)

  /** How a `with` statement (or one step of it) ended. */
  datatype Exit = Normal | Raised(error: Error)
}
