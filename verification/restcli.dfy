/**
 * The sequence every request wrapper in rest-cli.go follows once an Action has
 * chosen its operation: resolve the credentials with start_api, and only when
 * that succeeds hand the operation to a client built from them. Formatting the
 * reply is not modelled.
 */
module RestCli {
  import opened Wrappers
  import opened Api
  import opened Cli
  import opened Gemini
  import opened Commands

  /** How one invocation ends: an error, or one operation sent through a client. */
  datatype Invocation = Failed(msg: string) | Called(client: Client, op: Op)

  /**
   * One command invocation. `file` is what opening and decoding the configured
   * path yields, `env` the environment, `offset` the local UTC offset.
   * Rejections by the Action come first and leave the credentials unread;
   * missing credentials stop the invocation before any operation is sent.
   */
  method Execute(cmd: Command, c: Context, offset: int, file: ConfigFile, env: Env)
    returns (o: Outcome, r: Invocation)
    ensures Acts(cmd, c, LocalNormalizer(offset), o)
    ensures o.Err? ==> r == Failed(o.msg)
    ensures o.CallOp? && Resolve(o.configPath, file, env).Failure? ==>
              r == Failed(Resolve(o.configPath, file, env).error)
    ensures o.CallOp? && Resolve(o.configPath, file, env).Success? ==>
              r == Called(Resolve(o.configPath, file, env).value, o.op)
    ensures r.Called? ==> o.CallOp? && CommandOf(r.op) == cmd && r.client.key != "" && r.client.secret != ""
  {
    o := Dispatch(cmd, c, LocalNormalizer(offset));
    if o.Err? {
      return o, Failed(o.msg);
    }
    var api := StartApi(o.configPath, file, env);
    if api.Failure? {
      return o, Failed(api.error);
    }
    r := Called(api.value, o.op);
  }
}
