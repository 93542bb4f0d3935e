/**
 * What the deployer makes of the external commands it runs: the result of
 * `run_command`, the `systemctl is-active` mapping of
 * `check_service_status`, and the "image already exists" test of
 * `build_image`. The commands themselves are outside the model; only their
 * exit codes and output enter it.
 */
module Commands {
  import opened PyText
  import opened Values

  /** The exception `run_command` raises when it is told not to continue on error. */
  datatype RunError = DeploymentError(message: string)

  /**
   * `run_command`: true on exit status 0; on any other status, false when
   * `continueOnError` is set and DeploymentError otherwise.
   */
  function RunCommand(exitCode: int, errorMsg: string, continueOnError: bool): (r: Result<bool, RunError>)
    ensures r == Ok(true) <==> exitCode == 0
    ensures r == Ok(false) <==> exitCode != 0 && continueOnError
    ensures r.Err? <==> exitCode != 0 && !continueOnError
    ensures r.Err? ==> r.error == DeploymentError(errorMsg)
  {
    if exitCode == 0 then Ok(true)
    else if continueOnError then Ok(false)
    else Err(DeploymentError(errorMsg))
  }

  /** Every call of `run_command` in the deployer continues on error, so none of them raises. */
  lemma ContinuingNeverRaises(exitCode: int, errorMsg: string)
    ensures RunCommand(exitCode, errorMsg, true).Ok?
    ensures RunCommand(exitCode, errorMsg, true).value <==> exitCode == 0
  {
  }

  /**
   * The outcome of `systemctl --user is-active`: the command ran and exited
   * with a status and some output, or it could not be run at all.
   */
  datatype Probe = Exited(code: int, stdout: string) | Unavailable

  /** The probe reports an active service. */
  predicate Running(p: Probe)
  {
    p.Exited? && p.code == 0
  }

  /**
   * `check_service_status`: the service is running exactly when the probe
   * exited with status 0; the status text is the stripped output, or
   * "unknown" when the probe could not run.
   */
  function ServiceStatus(p: Probe): (r: (bool, string))
    ensures r.0 <==> Running(p)
    ensures p.Unavailable? ==> r.1 == "unknown"
    ensures p.Exited? ==> r.1 == Strip(p.stdout)
  {
    match p
    case Exited(code, out) => (code == 0, Strip(out))
    case Unavailable => (false, "unknown")
  }

  /**
   * The test `build_image` applies to the output of `podman images -q`: the
   * image exists exactly when the output holds a non-whitespace character.
   */
  function ImageListed(stdout: string): (listed: bool)
    ensures listed <==> exists k :: 0 <= k < |stdout| && !IsSpace(stdout[k])
  {
    Strip(stdout) != ""
  }
}
