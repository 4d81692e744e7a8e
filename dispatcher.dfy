/**
 * The server entry point: it starts the AWS server when the process runs
 * in an AWS environment and the local server otherwise. The environment is
 * the map of environment variables and whether `/var/app/current` exists.
 */
module Dispatcher {
  datatype ServerKind = AwsServer | LocalServer

  const AwsVariables: seq<string> := ["AWS_EXECUTION_ENV", "LAMBDA_RUNTIME_DIR", "EB_IS_COMMAND_LEADER"]
  const AppDirectory: string := "/var/app/current"

  /** `os.environ.get(name)` is truthy: set and not empty. */
  predicate IsSet(environ: map<string, string>, name: string)
  {
    name in environ && environ[name] != []
  }

  /** `main`'s choice. */
  function Dispatch(environ: map<string, string>, appDirExists: bool): (k: ServerKind)
    ensures k == AwsServer <==>
      IsSet(environ, "AWS_EXECUTION_ENV") || IsSet(environ, "LAMBDA_RUNTIME_DIR") || appDirExists || IsSet(environ, "EB_IS_COMMAND_LEADER")
    ensures k == LocalServer <==> !appDirExists && forall name :: name in AwsVariables ==> !IsSet(environ, name)
  {
    if IsSet(environ, "AWS_EXECUTION_ENV") || IsSet(environ, "LAMBDA_RUNTIME_DIR") || appDirExists
       || IsSet(environ, "EB_IS_COMMAND_LEADER")
    then AwsServer
    else LocalServer
  }

  /** Variables other than the three AWS ones never change the choice. */
  lemma DispatchReadsOnlySignals(e1: map<string, string>, e2: map<string, string>, appDirExists: bool)
    requires forall name :: name in AwsVariables ==> (IsSet(e1, name) <==> IsSet(e2, name))
    ensures Dispatch(e1, appDirExists) == Dispatch(e2, appDirExists)
  {
    assert AwsVariables[0] == "AWS_EXECUTION_ENV" && AwsVariables[1] == "LAMBDA_RUNTIME_DIR";
    assert AwsVariables[2] == "EB_IS_COMMAND_LEADER";
  }

  /** A variable set to the empty string counts as unset. */
  lemma EmptyVariableIsUnset(environ: map<string, string>, name: string, appDirExists: bool)
    requires name in AwsVariables
    ensures Dispatch(environ[name := ""], appDirExists) == Dispatch(environ - {name}, appDirExists)
  {
    DispatchReadsOnlySignals(environ[name := ""], environ - {name}, appDirExists);
  }

  /**
   * `main`: exactly one server's `main` is started, the one `Dispatch` names.
   */
  method StartServer(environ: map<string, string>, appDirExists: bool) returns (started: seq<ServerKind>)
    ensures |started| == 1 && started[0] == Dispatch(environ, appDirExists)
    ensures started == [AwsServer] || started == [LocalServer]
  {
    var isAws := IsSet(environ, "AWS_EXECUTION_ENV") || IsSet(environ, "LAMBDA_RUNTIME_DIR") || appDirExists
                 || IsSet(environ, "EB_IS_COMMAND_LEADER");
    if isAws {
      started := [AwsServer];
    } else {
      started := [LocalServer];
    }
  }
}
