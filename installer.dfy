/**
 * The agent's software installer runner: check a precondition query, fetch
 * the install and post-install scripts, download the installer into a
 * temporary directory, run both scripts and submit each one's result. Once
 * the installer has been downloaded the temporary directory is removed on
 * every return (a deferred call in the source).
 *
 * The osquery client, the server client, the file system and the script
 * executor are collaborators given by their answers; every call made to them
 * is recorded, in order, in the ghost trace `trace`. The temporary-directory
 * hook is not recorded: it cannot fail, and the directory it gives appears in
 * the download and removal steps. The wall-clock runtime of a script is an
 * input, in nanoseconds.
 */
module Installer {
  import opened Wrappers
  import opened Errors

  const NanosPerSecond: nat := 1_000_000_000

  /** The fields of fleet.OrbitSoftwareInstaller the runner reads. */
  datatype SoftwareInstaller = SoftwareInstaller(
    softwareId: string, preInstallCondition: string, installScript: string, postInstallScript: string)

  /** The fields of fleet.HostScriptResult the runner reads. */
  datatype HostScript = HostScript(id: nat, executionID: string, scriptContents: string)

  /** fleet.HostScriptResultPayload: what is submitted after a script ran. */
  datatype ScriptResultPayload = ScriptResultPayload(executionID: string, output: string, runtime: int, exitCode: int)

  type Row = map<string, string>

  /** The answer to an osquery query: a transport error, or a status and the result rows. */
  datatype QueryReply =
    | QueryFailed(err: Error)
    | QueryResponse(statusCode: int, statusMessage: string, rows: seq<Row>)

  datatype QueryClient = QueryClient(query: string -> QueryReply)

  /** The installer.Client interface: the server's answer to each call. */
  datatype OrbitClient = OrbitClient(
    getHostScript: string -> Result<HostScript, Error>,
    getInstaller: (string, string) -> Result<string, Error>,
    saveHostScriptResult: ScriptResultPayload -> Option<Error>)

  /** What executing a script gives: its combined output, its exit code and a launch error. */
  datatype ExecResult = ExecResult(output: string, exitCode: int, err: Option<Error>)

  /** filepath.Join(dir, elem). */
  datatype Path = Join(dir: string, elem: string)

  /** A call made to a collaborator. */
  datatype Step =
    | Query(query: string)
    | GetHostScript(execID: string)
    | GetInstaller(installerID: string, downloadDir: string)
    | WriteFile(path: Path, contents: string)
    | Exec(path: Path)
    | SaveHostScriptResult(result: ScriptResultPayload)
    | RemoveAll(dir: string)

  /** The value of a decimal digit; any other character counts as 0. */
  function DigitValue(c: char): nat
  {
    if '0' <= c <= '9' then c as int - '0' as int else 0
  }

  /** The number a string of decimal digits denotes, most significant digit first. */
  function DecimalValue(s: string): nat
  {
    if s == [] then 0 else DecimalValue(s[..|s| - 1]) * 10 + DigitValue(s[|s| - 1])
  }

  /**
   * strconv.Itoa on a non-negative id: the canonical decimal form of `n`,
   * digits only, denoting `n`, with no leading zero.
   */
  function Itoa(n: nat): (s: string)
    ensures |s| > 0 && forall i :: 0 <= i < |s| ==> '0' <= s[i] <= '9'
    ensures DecimalValue(s) == n
    ensures s[0] == '0' ==> s == "0"
  {
    var last := [(48 + n % 10) as char];
    if n < 10 then last
    else
      var prefix := Itoa(n / 10);
      assert (prefix + last)[..|prefix|] == prefix;
      prefix + last
  }

  /** Two script ids never share a file name. */
  lemma ItoaInjective(a: nat, b: nat)
    ensures Itoa(a) == Itoa(b) <==> a == b
  {
  }

  /** preConditionCheck's verdict: whether to install, and the error. */
  datatype Check = Check(shouldInstall: bool, err: Option<Error>)

  /**
   * preConditionCheck's decision from the query's answer: a transport error
   * or a non-zero status is an error and no install; status 0 installs
   * exactly when at least one row came back.
   */
  function PreconditionDecision(reply: QueryReply): (c: Check)
    ensures c.err.Some? <==> reply.QueryFailed? || reply.statusCode != 0
    ensures c.err.Some? ==> !c.shouldInstall
    ensures c.shouldInstall <==> reply.QueryResponse? && reply.statusCode == 0 && |reply.rows| > 0
    ensures reply.QueryFailed? ==> c.err == Some(Wrapped("precondition check", reply.err))
    ensures reply.QueryResponse? && reply.statusCode != 0 ==>
              c.err == Some(QueryStatus(reply.statusCode, reply.statusMessage))
  {
    match reply
    case QueryFailed(e) => Check(false, Some(Wrapped("precondition check", e)))
    case QueryResponse(code, message, rows) =>
      if code != 0 then Check(false, Some(QueryStatus(code, message)))
      else Check(|rows| > 0, None)
  }

  /** The calls made and the error returned by one operation. */
  datatype Run = Run(steps: seq<Step>, err: Option<Error>)

  /** One letter per kind of call, to state the order of a trace. */
  function Tag(s: Step): char
  {
    match s
    case Query(_) => 'Q'
    case GetHostScript(_) => 'G'
    case GetInstaller(_, _) => 'I'
    case WriteFile(_, _) => 'W'
    case Exec(_) => 'E'
    case SaveHostScriptResult(_) => 'S'
    case RemoveAll(_) => 'R'
  }

  function Tags(steps: seq<Step>): string
  {
    if steps == [] then [] else [Tag(steps[0])] + Tags(steps[1..])
  }

  lemma {:induction false} TagsAppend(a: seq<Step>, b: seq<Step>)
    ensures Tags(a + b) == Tags(a) + Tags(b)
  {
    if a == [] {
      assert a + b == b;
    } else {
      assert (a + b)[1..] == a[1..] + b;
      TagsAppend(a[1..], b);
    }
  }

  /** Recording a run's steps one at a time or all at once gives the same trace. */
  lemma AppendSteps(before: seq<Step>, first: seq<Step>, rest: seq<Step>)
    ensures before + first + rest == before + (first + rest)
  {
  }

  /** The concatenations of trace shapes the runner's lemmas rely on. */
  lemma ShapeLiterals()
    ensures "W" + "R" == "WR" && "WES" + "R" == "WESR"
    ensures "WES" + "W" + "R" == "WESWR" && "WES" + "WES" + "R" == "WESWESR"
    ensures "I" + "WR" == "IWR" && "I" + "WESR" == "IWESR"
    ensures "I" + "WESWR" == "IWESWR" && "I" + "WESWESR" == "IWESWESR"
    ensures "GG" + "I" == "GGI" && "GG" + "IWR" == "GGIWR" && "GG" + "IWESR" == "GGIWESR"
    ensures "GG" + "IWESWR" == "GGIWESWR" && "GG" + "IWESWESR" == "GGIWESWESR"
    ensures "Q" + "G" == "QG" && "Q" + "GG" == "QGG" && "Q" + "GGI" == "QGGI" && "Q" + "GGIWR" == "QGGIWR"
    ensures "Q" + "GGIWESR" == "QGGIWESR" && "Q" + "GGIWESWR" == "QGGIWESWR"
    ensures "Q" + "GGIWESWESR" == "QGGIWESWESR"
  {
  }

  class Runner {
    const osqueryClient: QueryClient
    const orbitClient: OrbitClient
    /** os.WriteFile's answer. */
    const writeFile: (Path, string) -> Option<Error>
    /** What os.TempDir, scripts.ExecCmd and os.RemoveAll do, the defaults of the hooks below. */
    const osTempDir: () -> string
    const osExecCmd: Path -> ExecResult
    const osRemoveAll: string -> Option<Error>

    /** Hooks that tests can set; a nil hook is replaced by its default when first needed. */
    var tempDirFn: Option<() -> string>
    var execCmdFn: Option<Path -> ExecResult>
    var removeAllFn: Option<string -> Option<Error>>

    /** Every call made to a collaborator, in order. */
    ghost var trace: seq<Step>

    constructor (osqueryClient: QueryClient, orbitClient: OrbitClient, writeFile: (Path, string) -> Option<Error>,
                 osTempDir: () -> string, osExecCmd: Path -> ExecResult, osRemoveAll: string -> Option<Error>)
      ensures this.osqueryClient == osqueryClient && this.orbitClient == orbitClient && this.writeFile == writeFile
      ensures this.osTempDir == osTempDir && this.osExecCmd == osExecCmd && this.osRemoveAll == osRemoveAll
      ensures tempDirFn.None? && execCmdFn.None? && removeAllFn.None?
      ensures trace == []
    {
      this.osqueryClient := osqueryClient;
      this.orbitClient := orbitClient;
      this.writeFile := writeFile;
      this.osTempDir := osTempDir;
      this.osExecCmd := osExecCmd;
      this.osRemoveAll := osRemoveAll;
      tempDirFn, execCmdFn, removeAllFn := None, None, None;
      trace := [];
    }

    /**
     * runInstallerScript: write the script next to the installer, run it,
     * and submit exactly one result, carrying the script's execution id, its
     * output, its runtime in whole seconds and its exit code. The error
     * returned comes from writing the file or from the submission only; the
     * exit code and the executor's own error are never returned.
     */
    function ScriptRun(script: HostScript, installerPath: string, exec: Path -> ExecResult, elapsed: nat): (r: Run)
      ensures var path := Join(installerPath, Itoa(script.id));
              |r.steps| > 0 && r.steps[0] == WriteFile(path, script.scriptContents) &&
              match writeFile(path, script.scriptContents)
              case Some(e) => r.steps == [r.steps[0]] && r.err == Some(Wrapped("writing script", e))
              case None =>
                var out := exec(path);
                |r.steps| == 3 && r.steps[1] == Exec(path) && r.steps[2].SaveHostScriptResult? &&
                r.steps[2].result.executionID == script.executionID &&
                r.steps[2].result.output == out.output &&
                r.steps[2].result.runtime == elapsed / NanosPerSecond &&
                r.steps[2].result.exitCode == out.exitCode &&
                r.err == Wrap(orbitClient.saveHostScriptResult(r.steps[2].result), "save script result")
    {
      var path := Join(installerPath, Itoa(script.id));
      var write := WriteFile(path, script.scriptContents);
      if writeFile(path, script.scriptContents).Some? then Run([write], ScriptError(script, installerPath, exec, elapsed))
      else Run([write, Exec(path), SaveHostScriptResult(Payload(script, installerPath, exec, elapsed))],
               ScriptError(script, installerPath, exec, elapsed))
    }

    /**
     * InstallSoftware as a value: the calls made and the error returned,
     * given the temporary directory hook, the executor and the runtimes of
     * the two scripts.
     */
    function InstallRun(installer: SoftwareInstaller, tempDir: () -> string, exec: Path -> ExecResult,
                        installNanos: nat, postNanos: nat): Run
    {
      var query := Query(installer.preInstallCondition);
      var check := PreconditionDecision(osqueryClient.query(installer.preInstallCondition));
      if check.err.Some? then Run([query], check.err)
      else if !check.shouldInstall then Run([query], None)
      else
        var fetch := FetchRun(installer, tempDir, exec, installNanos, postNanos);
        Run([query] + fetch.steps, fetch.err)
    }

    /**
     * The part of InstallSoftware after a passed precondition: fetch the two
     * scripts, stopping at the first failure, then download and run them.
     */
    function FetchRun(installer: SoftwareInstaller, tempDir: () -> string, exec: Path -> ExecResult,
                      installNanos: nat, postNanos: nat): Run
    {
      var fetchInstall := GetHostScript(installer.installScript);
      match orbitClient.getHostScript(installer.installScript)
      case Err(e) => Run([fetchInstall], Some(e))
      case Ok(installScript) =>
        var fetchPost := GetHostScript(installer.postInstallScript);
        match orbitClient.getHostScript(installer.postInstallScript)
        case Err(e) => Run([fetchInstall, fetchPost], Some(e))
        case Ok(postInstallScript) =>
          var download := DownloadRun(installer.softwareId, installScript, postInstallScript, tempDir(), exec,
                                      installNanos, postNanos);
          Run([fetchInstall, fetchPost] + download.steps, download.err)
    }

    /**
     * The part of InstallSoftware from the download on: fetch the installer
     * into `tmpDir`, then run the scripts unless the download failed.
     */
    function DownloadRun(softwareId: string, installScript: HostScript, postInstallScript: HostScript, tmpDir: string,
                         exec: Path -> ExecResult, installNanos: nat, postNanos: nat): Run
    {
      var fetch := GetInstaller(softwareId, tmpDir);
      match orbitClient.getInstaller(softwareId, tmpDir)
      case Err(e) => Run([fetch], Some(e))
      case Ok(installerPath) =>
        var scripts := ScriptsRun(installScript, postInstallScript, installerPath, tmpDir, exec, installNanos, postNanos);
        Run([fetch] + scripts.steps, scripts.err)
    }

    /**
     * The part of InstallSoftware after the download: the install script,
     * then the post-install script unless the first one failed, then the
     * deferred removal of the temporary directory.
     */
    function ScriptsRun(installScript: HostScript, postInstallScript: HostScript, installerPath: string, tmpDir: string,
                        exec: Path -> ExecResult, installNanos: nat, postNanos: nat): Run
    {
      var first := ScriptRun(installScript, installerPath, exec, installNanos);
      if first.err.Some? then Run(first.steps + [RemoveAll(tmpDir)], first.err)
      else
        var second := ScriptRun(postInstallScript, installerPath, exec, postNanos);
        Run(first.steps + second.steps + [RemoveAll(tmpDir)], second.err)
    }

    /** The script was written next to the installer. */
    predicate Written(script: HostScript, installerPath: string)
    {
      writeFile(Join(installerPath, Itoa(script.id)), script.scriptContents).None?
    }

    /** The result submitted for a written script: its execution id, output, whole seconds and exit code. */
    function Payload(script: HostScript, installerPath: string, exec: Path -> ExecResult, elapsed: nat): ScriptResultPayload
    {
      var out := exec(Join(installerPath, Itoa(script.id)));
      ScriptResultPayload(script.executionID, out.output, elapsed / NanosPerSecond, out.exitCode)
    }

    /** The script was written and the server accepted its result. */
    predicate Saved(script: HostScript, installerPath: string, exec: Path -> ExecResult, elapsed: nat)
    {
      Written(script, installerPath) &&
      orbitClient.saveHostScriptResult(Payload(script, installerPath, exec, elapsed)).None?
    }

    /**
     * The error one script run returns: the failed write wrapped as
     * "writing script", else the rejected submission wrapped as "save script
     * result"; nil exactly when the result was accepted.
     */
    function ScriptError(script: HostScript, installerPath: string, exec: Path -> ExecResult, elapsed: nat): (e: Option<Error>)
      ensures e.None? <==> Saved(script, installerPath, exec, elapsed)
      ensures !Written(script, installerPath) ==>
                e.Some? && e.value.Wrapped? && e.value.msg == "writing script" &&
                Some(e.value.cause) == writeFile(Join(installerPath, Itoa(script.id)), script.scriptContents)
      ensures Written(script, installerPath) && e.Some? ==>
                e.value.Wrapped? && e.value.msg == "save script result" &&
                Some(e.value.cause) == orbitClient.saveHostScriptResult(Payload(script, installerPath, exec, elapsed))
    {
      match writeFile(Join(installerPath, Itoa(script.id)), script.scriptContents)
      case Some(w) => Some(Wrapped("writing script", w))
      case None => Wrap(orbitClient.saveHostScriptResult(Payload(script, installerPath, exec, elapsed)), "save script result")
    }

    /** One script run is `W` when the write failed and `WES` otherwise; it succeeds exactly when the result was accepted. */
    lemma ScriptTags(script: HostScript, installerPath: string, exec: Path -> ExecResult, elapsed: nat)
      ensures var run := ScriptRun(script, installerPath, exec, elapsed);
              && Tags(run.steps) == (if Written(script, installerPath) then "WES" else "W")
              && (run.err.None? <==> Saved(script, installerPath, exec, elapsed))
    {
      var run := ScriptRun(script, installerPath, exec, elapsed);
      if |run.steps| == 3 {
        assert run.steps[1..][1..] == run.steps[2..];
        assert Tags(run.steps[2..]) == "S";
        assert Tags(run.steps[1..]) == "ES";
      }
    }

    /**
     * After the download: the install script runs first and the run stops at
     * its first failure, a failed write or a rejected result; the
     * post-install script is attempted only after the install script's result
     * was accepted. The removal comes last on every path.
     */
    lemma ScriptsShape(installScript: HostScript, postInstallScript: HostScript, installerPath: string, tmpDir: string,
                       exec: Path -> ExecResult, installNanos: nat, postNanos: nat)
      ensures var run := ScriptsRun(installScript, postInstallScript, installerPath, tmpDir, exec, installNanos, postNanos);
              && (!Written(installScript, installerPath) ==> Tags(run.steps) == "WR" && run.err == ScriptError(installScript, installerPath, exec, installNanos))
              && (Written(installScript, installerPath) && !Saved(installScript, installerPath, exec, installNanos) ==>
                    Tags(run.steps) == "WESR" && run.err == ScriptError(installScript, installerPath, exec, installNanos))
              && (Saved(installScript, installerPath, exec, installNanos) && !Written(postInstallScript, installerPath) ==>
                    Tags(run.steps) == "WESWR" && run.err == ScriptError(postInstallScript, installerPath, exec, postNanos))
              && (Saved(installScript, installerPath, exec, installNanos) && Written(postInstallScript, installerPath) ==>
                    Tags(run.steps) == "WESWESR" && run.err == ScriptError(postInstallScript, installerPath, exec, postNanos))
              && (run.err.None? <==>
                    Saved(installScript, installerPath, exec, installNanos) && Saved(postInstallScript, installerPath, exec, postNanos))
              && run.steps[|run.steps| - 1] == RemoveAll(tmpDir)
    {
      var first := ScriptRun(installScript, installerPath, exec, installNanos);
      var r := RemoveAll(tmpDir);
      assert Tags([r]) == "R";
      ScriptTags(installScript, installerPath, exec, installNanos);
      ShapeLiterals();
      if first.err.Some? {
        TagsAppend(first.steps, [r]);
      } else {
        var second := ScriptRun(postInstallScript, installerPath, exec, postNanos);
        ScriptTags(postInstallScript, installerPath, exec, postNanos);
        TagsAppend(first.steps, second.steps);
        TagsAppend(first.steps + second.steps, [r]);
      }
    }

    /** From the download on: a failed download ends the run with its error; after it, the shapes of ScriptsShape follow `I`. */
    lemma DownloadShape(softwareId: string, installScript: HostScript, postInstallScript: HostScript, tmpDir: string,
                        exec: Path -> ExecResult, installNanos: nat, postNanos: nat)
      ensures var run := DownloadRun(softwareId, installScript, postInstallScript, tmpDir, exec, installNanos, postNanos);
              var downloaded := orbitClient.getInstaller(softwareId, tmpDir);
              && (downloaded.Err? ==> Tags(run.steps) == "I" && run.err == Some(downloaded.error))
              && (downloaded.Ok? ==>
                    var path := downloaded.value;
                    && (!Written(installScript, path) ==> Tags(run.steps) == "IWR" && run.err == ScriptError(installScript, path, exec, installNanos))
                    && (Written(installScript, path) && !Saved(installScript, path, exec, installNanos) ==>
                          Tags(run.steps) == "IWESR" && run.err == ScriptError(installScript, path, exec, installNanos))
                    && (Saved(installScript, path, exec, installNanos) && !Written(postInstallScript, path) ==>
                          Tags(run.steps) == "IWESWR" && run.err == ScriptError(postInstallScript, path, exec, postNanos))
                    && (Saved(installScript, path, exec, installNanos) && Written(postInstallScript, path) ==>
                          Tags(run.steps) == "IWESWESR" && run.err == ScriptError(postInstallScript, path, exec, postNanos))
                    && (run.err.None? <==>
                          Saved(installScript, path, exec, installNanos) && Saved(postInstallScript, path, exec, postNanos))
                    && run.steps[|run.steps| - 1] == RemoveAll(tmpDir))
    {
      var fetch := GetInstaller(softwareId, tmpDir);
      assert Tags([fetch]) == "I";
      match orbitClient.getInstaller(softwareId, tmpDir)
      case Err(_) =>
      case Ok(installerPath) =>
        DownloadedScripts(softwareId, installScript, postInstallScript, installerPath, tmpDir, exec, installNanos, postNanos);
    }

    /** DownloadShape once the installer is at `installerPath`. */
    lemma DownloadedScripts(softwareId: string, installScript: HostScript, postInstallScript: HostScript,
                            installerPath: string, tmpDir: string, exec: Path -> ExecResult, installNanos: nat, postNanos: nat)
      requires orbitClient.getInstaller(softwareId, tmpDir) == Ok(installerPath)
      ensures var run := DownloadRun(softwareId, installScript, postInstallScript, tmpDir, exec, installNanos, postNanos);
              && (!Written(installScript, installerPath) ==> Tags(run.steps) == "IWR" && run.err == ScriptError(installScript, installerPath, exec, installNanos))
              && (Written(installScript, installerPath) && !Saved(installScript, installerPath, exec, installNanos) ==>
                    Tags(run.steps) == "IWESR" && run.err == ScriptError(installScript, installerPath, exec, installNanos))
              && (Saved(installScript, installerPath, exec, installNanos) && !Written(postInstallScript, installerPath) ==>
                    Tags(run.steps) == "IWESWR" && run.err == ScriptError(postInstallScript, installerPath, exec, postNanos))
              && (Saved(installScript, installerPath, exec, installNanos) && Written(postInstallScript, installerPath) ==>
                    Tags(run.steps) == "IWESWESR" && run.err == ScriptError(postInstallScript, installerPath, exec, postNanos))
              && (run.err.None? <==>
                    Saved(installScript, installerPath, exec, installNanos) && Saved(postInstallScript, installerPath, exec, postNanos))
              && run.steps[|run.steps| - 1] == RemoveAll(tmpDir)
    {
      var fetch := GetInstaller(softwareId, tmpDir);
      var scripts := ScriptsRun(installScript, postInstallScript, installerPath, tmpDir, exec, installNanos, postNanos);
      assert Tags([fetch]) == "I";
      ScriptsShape(installScript, postInstallScript, installerPath, tmpDir, exec, installNanos, postNanos);
      TagsAppend([fetch], scripts.steps);
      ShapeLiterals();
    }

    /** The precondition query said to install. */
    predicate Passed(installer: SoftwareInstaller)
    {
      var check := PreconditionDecision(osqueryClient.query(installer.preInstallCondition));
      check.err.None? && check.shouldInstall
    }

    predicate InstallScriptFetched(installer: SoftwareInstaller)
    {
      orbitClient.getHostScript(installer.installScript).Ok?
    }

    predicate ScriptsFetched(installer: SoftwareInstaller)
    {
      InstallScriptFetched(installer) && orbitClient.getHostScript(installer.postInstallScript).Ok?
    }

    /** Both scripts were fetched and the installer was downloaded into the directory the hook gives. */
    predicate InstallerFetched(installer: SoftwareInstaller, tempDir: () -> string)
    {
      ScriptsFetched(installer) && orbitClient.getInstaller(installer.softwareId, tempDir()).Ok?
    }

    /** The install script was written next to the downloaded installer. */
    predicate InstallScriptWritten(installer: SoftwareInstaller, tempDir: () -> string)
    {
      InstallerFetched(installer, tempDir) &&
      Written(orbitClient.getHostScript(installer.installScript).value,
              orbitClient.getInstaller(installer.softwareId, tempDir()).value)
    }

    /** The install script ran and the server accepted its result. */
    predicate InstallScriptSaved(installer: SoftwareInstaller, tempDir: () -> string, exec: Path -> ExecResult, installNanos: nat)
    {
      InstallerFetched(installer, tempDir) &&
      Saved(orbitClient.getHostScript(installer.installScript).value,
            orbitClient.getInstaller(installer.softwareId, tempDir()).value, exec, installNanos)
    }

    /** After an accepted install script, the post-install script was written. */
    predicate PostScriptWritten(installer: SoftwareInstaller, tempDir: () -> string, exec: Path -> ExecResult, installNanos: nat)
    {
      InstallScriptSaved(installer, tempDir, exec, installNanos) &&
      Written(orbitClient.getHostScript(installer.postInstallScript).value,
              orbitClient.getInstaller(installer.softwareId, tempDir()).value)
    }

    /** Every step after the precondition succeeded. */
    predicate PostScriptSaved(installer: SoftwareInstaller, tempDir: () -> string, exec: Path -> ExecResult,
                              installNanos: nat, postNanos: nat)
    {
      InstallScriptSaved(installer, tempDir, exec, installNanos) &&
      Saved(orbitClient.getHostScript(installer.postInstallScript).value,
            orbitClient.getInstaller(installer.softwareId, tempDir()).value, exec, postNanos)
    }

    /** The install script's error once the installer was downloaded. */
    function InstallScriptError(installer: SoftwareInstaller, tempDir: () -> string, exec: Path -> ExecResult,
                                installNanos: nat): Option<Error>
      requires InstallerFetched(installer, tempDir)
    {
      ScriptError(orbitClient.getHostScript(installer.installScript).value,
                  orbitClient.getInstaller(installer.softwareId, tempDir()).value, exec, installNanos)
    }

    /** The post-install script's error once the installer was downloaded. */
    function PostScriptError(installer: SoftwareInstaller, tempDir: () -> string, exec: Path -> ExecResult,
                             postNanos: nat): Option<Error>
      requires InstallerFetched(installer, tempDir)
    {
      ScriptError(orbitClient.getHostScript(installer.postInstallScript).value,
                  orbitClient.getInstaller(installer.softwareId, tempDir()).value, exec, postNanos)
    }

    /**
     * After a passed precondition: each step runs only if the one before it
     * succeeded, and the first failure's error is returned. The result is nil
     * exactly when every step succeeded. The removal is last once the
     * installer was downloaded.
     */
    lemma FetchShape(installer: SoftwareInstaller, tempDir: () -> string, exec: Path -> ExecResult,
                     installNanos: nat, postNanos: nat)
      ensures var run := FetchRun(installer, tempDir, exec, installNanos, postNanos);
              && (!InstallScriptFetched(installer) ==>
                    Tags(run.steps) == "G" && run.err == Some(orbitClient.getHostScript(installer.installScript).error))
              && (InstallScriptFetched(installer) && !ScriptsFetched(installer) ==>
                    Tags(run.steps) == "GG" && run.err == Some(orbitClient.getHostScript(installer.postInstallScript).error))
              && (ScriptsFetched(installer) && !InstallerFetched(installer, tempDir) ==>
                    Tags(run.steps) == "GGI" && run.err == Some(orbitClient.getInstaller(installer.softwareId, tempDir()).error))
              && (InstallerFetched(installer, tempDir) && !InstallScriptWritten(installer, tempDir) ==>
                    Tags(run.steps) == "GGIWR" && run.err == InstallScriptError(installer, tempDir, exec, installNanos))
              && (InstallScriptWritten(installer, tempDir) && !InstallScriptSaved(installer, tempDir, exec, installNanos) ==>
                    Tags(run.steps) == "GGIWESR" && run.err == InstallScriptError(installer, tempDir, exec, installNanos))
              && (InstallScriptSaved(installer, tempDir, exec, installNanos) &&
                  !PostScriptWritten(installer, tempDir, exec, installNanos) ==>
                    Tags(run.steps) == "GGIWESWR" && run.err == PostScriptError(installer, tempDir, exec, postNanos))
              && (PostScriptWritten(installer, tempDir, exec, installNanos) ==> Tags(run.steps) == "GGIWESWESR" && run.err == PostScriptError(installer, tempDir, exec, postNanos))
              && (run.err.None? <==> PostScriptSaved(installer, tempDir, exec, installNanos, postNanos))
              && (InstallerFetched(installer, tempDir) ==> run.steps[|run.steps| - 1] == RemoveAll(tempDir()))
    {
      var g1 := GetHostScript(installer.installScript);
      var g2 := GetHostScript(installer.postInstallScript);
      assert Tags([g1]) == "G";
      if ScriptsFetched(installer) {
        FetchedShape(installer, tempDir, exec, installNanos, postNanos);
      } else if InstallScriptFetched(installer) {
        assert Tags([g1, g2]) == "GG" by {
          assert [g1, g2] == [g1] + [g2];
          TagsAppend([g1], [g2]);
        }
      }
    }

    /** FetchShape once both scripts were fetched: the download's shapes follow `GG`. */
    lemma FetchedShape(installer: SoftwareInstaller, tempDir: () -> string, exec: Path -> ExecResult,
                       installNanos: nat, postNanos: nat)
      requires ScriptsFetched(installer)
      ensures var run := FetchRun(installer, tempDir, exec, installNanos, postNanos);
              && (!InstallerFetched(installer, tempDir) ==>
                    Tags(run.steps) == "GGI" && run.err == Some(orbitClient.getInstaller(installer.softwareId, tempDir()).error))
              && (InstallerFetched(installer, tempDir) && !InstallScriptWritten(installer, tempDir) ==>
                    Tags(run.steps) == "GGIWR" && run.err == InstallScriptError(installer, tempDir, exec, installNanos))
              && (InstallScriptWritten(installer, tempDir) && !InstallScriptSaved(installer, tempDir, exec, installNanos) ==>
                    Tags(run.steps) == "GGIWESR" && run.err == InstallScriptError(installer, tempDir, exec, installNanos))
              && (InstallScriptSaved(installer, tempDir, exec, installNanos) &&
                  !PostScriptWritten(installer, tempDir, exec, installNanos) ==>
                    Tags(run.steps) == "GGIWESWR" && run.err == PostScriptError(installer, tempDir, exec, postNanos))
              && (PostScriptWritten(installer, tempDir, exec, installNanos) ==> Tags(run.steps) == "GGIWESWESR" && run.err == PostScriptError(installer, tempDir, exec, postNanos))
              && (run.err.None? <==> PostScriptSaved(installer, tempDir, exec, installNanos, postNanos))
              && (InstallerFetched(installer, tempDir) ==> run.steps[|run.steps| - 1] == RemoveAll(tempDir()))
    {
      if InstallerFetched(installer, tempDir) {
        FetchedDownloaded(installer, tempDir, exec, installNanos, postNanos);
      } else {
        var script := orbitClient.getHostScript(installer.installScript).value;
        var post := orbitClient.getHostScript(installer.postInstallScript).value;
        FetchedTags(installer, tempDir, exec, installNanos, postNanos);
        DownloadShape(installer.softwareId, script, post, tempDir(), exec, installNanos, postNanos);
        ShapeLiterals();
      }
    }

    /** FetchedShape once the installer was downloaded: the script shapes follow `GGI`. */
    lemma FetchedDownloaded(installer: SoftwareInstaller, tempDir: () -> string, exec: Path -> ExecResult,
                            installNanos: nat, postNanos: nat)
      requires InstallerFetched(installer, tempDir)
      ensures var run := FetchRun(installer, tempDir, exec, installNanos, postNanos);
              && (!InstallScriptWritten(installer, tempDir) ==> Tags(run.steps) == "GGIWR" && run.err == InstallScriptError(installer, tempDir, exec, installNanos))
              && (InstallScriptWritten(installer, tempDir) && !InstallScriptSaved(installer, tempDir, exec, installNanos) ==>
                    Tags(run.steps) == "GGIWESR" && run.err == InstallScriptError(installer, tempDir, exec, installNanos))
              && (InstallScriptSaved(installer, tempDir, exec, installNanos) &&
                  !PostScriptWritten(installer, tempDir, exec, installNanos) ==>
                    Tags(run.steps) == "GGIWESWR" && run.err == PostScriptError(installer, tempDir, exec, postNanos))
              && (PostScriptWritten(installer, tempDir, exec, installNanos) ==> Tags(run.steps) == "GGIWESWESR" && run.err == PostScriptError(installer, tempDir, exec, postNanos))
              && (run.err.None? <==> PostScriptSaved(installer, tempDir, exec, installNanos, postNanos))
              && run.steps[|run.steps| - 1] == RemoveAll(tempDir())
    {
      var script := orbitClient.getHostScript(installer.installScript).value;
      var post := orbitClient.getHostScript(installer.postInstallScript).value;
      var path := orbitClient.getInstaller(installer.softwareId, tempDir()).value;
      FetchedScripts(installer, tempDir, exec, installNanos, postNanos, script, post, path);
      assert InstallScriptWritten(installer, tempDir) == Written(script, path);
      assert InstallScriptSaved(installer, tempDir, exec, installNanos) == Saved(script, path, exec, installNanos);
      assert PostScriptWritten(installer, tempDir, exec, installNanos) ==
             (Saved(script, path, exec, installNanos) && Written(post, path));
      assert PostScriptSaved(installer, tempDir, exec, installNanos, postNanos) ==
             (Saved(script, path, exec, installNanos) && Saved(post, path, exec, postNanos));
      assert InstallScriptError(installer, tempDir, exec, installNanos) == ScriptError(script, path, exec, installNanos);
      assert PostScriptError(installer, tempDir, exec, postNanos) == ScriptError(post, path, exec, postNanos);
    }

    /** FetchedDownloaded for the fetched scripts `script` and `post` and the downloaded installer at `path`. */
    lemma FetchedScripts(installer: SoftwareInstaller, tempDir: () -> string, exec: Path -> ExecResult,
                         installNanos: nat, postNanos: nat, script: HostScript, post: HostScript, path: string)
      requires orbitClient.getHostScript(installer.installScript) == Ok(script)
      requires orbitClient.getHostScript(installer.postInstallScript) == Ok(post)
      requires orbitClient.getInstaller(installer.softwareId, tempDir()) == Ok(path)
      ensures var run := FetchRun(installer, tempDir, exec, installNanos, postNanos);
              && (!Written(script, path) ==> Tags(run.steps) == "GGIWR" && run.err == ScriptError(script, path, exec, installNanos))
              && (Written(script, path) && !Saved(script, path, exec, installNanos) ==>
                    Tags(run.steps) == "GGIWESR" && run.err == ScriptError(script, path, exec, installNanos))
              && (Saved(script, path, exec, installNanos) && !Written(post, path) ==>
                    Tags(run.steps) == "GGIWESWR" && run.err == ScriptError(post, path, exec, postNanos))
              && (Saved(script, path, exec, installNanos) && Written(post, path) ==> Tags(run.steps) == "GGIWESWESR" && run.err == ScriptError(post, path, exec, postNanos))
              && (run.err.None? <==> Saved(script, path, exec, installNanos) && Saved(post, path, exec, postNanos))
              && run.steps[|run.steps| - 1] == RemoveAll(tempDir())
    {
      FetchedTags(installer, tempDir, exec, installNanos, postNanos);
      DownloadedScripts(installer.softwareId, script, post, path, tempDir(), exec, installNanos, postNanos);
      ShapeLiterals();
    }

    /**
     * The fetch phase case by case: a failed fetch ends it with that fetch's
     * error and no later stage; with both scripts fetched, it is the two
     * fetches followed by the download's run, which decides the later stages.
     */
    lemma FetchCases(installer: SoftwareInstaller, tempDir: () -> string, exec: Path -> ExecResult,
                     installNanos: nat, postNanos: nat)
      ensures var run := FetchRun(installer, tempDir, exec, installNanos, postNanos);
              var fetchInstall := orbitClient.getHostScript(installer.installScript);
              var fetchPost := orbitClient.getHostScript(installer.postInstallScript);
              && (fetchInstall.Err? ==>
                    && run == Run([GetHostScript(installer.installScript)], Some(fetchInstall.error))
                    && !ScriptsFetched(installer) && !InstallerFetched(installer, tempDir)
                    && !InstallScriptWritten(installer, tempDir))
              && (fetchInstall.Ok? && fetchPost.Err? ==>
                    && run == Run([GetHostScript(installer.installScript), GetHostScript(installer.postInstallScript)],
                                  Some(fetchPost.error))
                    && !ScriptsFetched(installer) && !InstallerFetched(installer, tempDir)
                    && !InstallScriptWritten(installer, tempDir))
              && (fetchInstall.Ok? && fetchPost.Ok? ==>
                    var download := DownloadRun(installer.softwareId, fetchInstall.value, fetchPost.value, tempDir(), exec,
                                                installNanos, postNanos);
                    var path := orbitClient.getInstaller(installer.softwareId, tempDir());
                    && ScriptsFetched(installer)
                    && run == Run([GetHostScript(installer.installScript), GetHostScript(installer.postInstallScript)] +
                                  download.steps, download.err)
                    && (InstallerFetched(installer, tempDir) <==> path.Ok?)
                    && (InstallScriptWritten(installer, tempDir) <==> path.Ok? && Written(fetchInstall.value, path.value)))
    {
    }

    /** With both scripts fetched, the run is the two fetches followed by the download's run. */
    lemma FetchedTags(installer: SoftwareInstaller, tempDir: () -> string, exec: Path -> ExecResult,
                      installNanos: nat, postNanos: nat)
      requires ScriptsFetched(installer)
      ensures var run := FetchRun(installer, tempDir, exec, installNanos, postNanos);
              var download := DownloadRun(installer.softwareId, orbitClient.getHostScript(installer.installScript).value,
                                          orbitClient.getHostScript(installer.postInstallScript).value, tempDir(), exec,
                                          installNanos, postNanos);
              && Tags(run.steps) == "GG" + Tags(download.steps)
              && run.err == download.err
              && (|download.steps| > 0 ==> run.steps[|run.steps| - 1] == download.steps[|download.steps| - 1])
    {
    }

    /** The run is the query alone with the precondition's error when it did not pass, and the query followed by the fetch phase's run when it did. */
    lemma PassedRun(installer: SoftwareInstaller, tempDir: () -> string, exec: Path -> ExecResult,
                    installNanos: nat, postNanos: nat)
      ensures var check := PreconditionDecision(osqueryClient.query(installer.preInstallCondition));
              var fetch := FetchRun(installer, tempDir, exec, installNanos, postNanos);
              && (Passed(installer) <==> check.err.None? && check.shouldInstall)
              && (!Passed(installer) ==> InstallRun(installer, tempDir, exec, installNanos, postNanos) ==
                                          Run([Query(installer.preInstallCondition)], check.err))
              && (Passed(installer) ==> InstallRun(installer, tempDir, exec, installNanos, postNanos) ==
                                         Run([Query(installer.preInstallCondition)] + fetch.steps, fetch.err))
    {
    }

    /** With the precondition passed, the run is the query followed by the fetch phase's run. */
    lemma PassedTags(installer: SoftwareInstaller, tempDir: () -> string, exec: Path -> ExecResult,
                     installNanos: nat, postNanos: nat)
      requires Passed(installer)
      ensures var run := InstallRun(installer, tempDir, exec, installNanos, postNanos);
              var fetch := FetchRun(installer, tempDir, exec, installNanos, postNanos);
              && Tags(run.steps) == "Q" + Tags(fetch.steps)
              && run.err == fetch.err
              && (|fetch.steps| > 0 ==> run.steps[|run.steps| - 1] == fetch.steps[|fetch.steps| - 1])
    {
    }

    /**
     * The steps run in a fixed order (precondition query, both script
     * fetches, download, then write/execute/submit for each script), each
     * only if every earlier one succeeded, and the first failure's error is
     * returned. A nil result means the precondition said not to install or
     * every step succeeded. The temporary directory is removed, last and
     * exactly once, precisely when the download succeeded.
     */
    lemma StepOrder(installer: SoftwareInstaller, tempDir: () -> string, exec: Path -> ExecResult,
                    installNanos: nat, postNanos: nat)
      ensures var run := InstallRun(installer, tempDir, exec, installNanos, postNanos);
              var check := PreconditionDecision(osqueryClient.query(installer.preInstallCondition));
              && run.steps[0] == Query(installer.preInstallCondition)
              && (!Passed(installer) ==> Tags(run.steps) == "Q" && run.err == check.err)
              && (Passed(installer) && !InstallScriptFetched(installer) ==>
                    Tags(run.steps) == "QG" && run.err == Some(orbitClient.getHostScript(installer.installScript).error))
              && (Passed(installer) && InstallScriptFetched(installer) && !ScriptsFetched(installer) ==>
                    Tags(run.steps) == "QGG" && run.err == Some(orbitClient.getHostScript(installer.postInstallScript).error))
              && (Passed(installer) && ScriptsFetched(installer) && !InstallerFetched(installer, tempDir) ==>
                    Tags(run.steps) == "QGGI" && run.err == Some(orbitClient.getInstaller(installer.softwareId, tempDir()).error))
              && (Passed(installer) && InstallerFetched(installer, tempDir) && !InstallScriptWritten(installer, tempDir) ==>
                    Tags(run.steps) == "QGGIWR" && run.err == InstallScriptError(installer, tempDir, exec, installNanos))
              && (Passed(installer) && InstallScriptWritten(installer, tempDir) &&
                  !InstallScriptSaved(installer, tempDir, exec, installNanos) ==>
                    Tags(run.steps) == "QGGIWESR" && run.err == InstallScriptError(installer, tempDir, exec, installNanos))
              && (Passed(installer) && InstallScriptSaved(installer, tempDir, exec, installNanos) &&
                  !PostScriptWritten(installer, tempDir, exec, installNanos) ==>
                    Tags(run.steps) == "QGGIWESWR" && run.err == PostScriptError(installer, tempDir, exec, postNanos))
              && (Passed(installer) && PostScriptWritten(installer, tempDir, exec, installNanos) ==>
                    Tags(run.steps) == "QGGIWESWESR" && run.err == PostScriptError(installer, tempDir, exec, postNanos))
              && (run.err.None? <==>
                    (check.err.None? && !check.shouldInstall) ||
                    (Passed(installer) && PostScriptSaved(installer, tempDir, exec, installNanos, postNanos)))
              && (Passed(installer) && InstallerFetched(installer, tempDir) ==>
                    run.steps[|run.steps| - 1] == RemoveAll(tempDir()))
    {
      if Passed(installer) {
        PassedShape(installer, tempDir, exec, installNanos, postNanos);
      } else {
        assert Tags([Query(installer.preInstallCondition)]) == "Q";
      }
    }

    /** StepOrder after a passed precondition: `Q`, then the shapes of FetchShape. */
    lemma PassedShape(installer: SoftwareInstaller, tempDir: () -> string, exec: Path -> ExecResult,
                      installNanos: nat, postNanos: nat)
      requires Passed(installer)
      ensures var run := InstallRun(installer, tempDir, exec, installNanos, postNanos);
              && run.steps[0] == Query(installer.preInstallCondition)
              && (!InstallScriptFetched(installer) ==>
                    Tags(run.steps) == "QG" && run.err == Some(orbitClient.getHostScript(installer.installScript).error))
              && (InstallScriptFetched(installer) && !ScriptsFetched(installer) ==>
                    Tags(run.steps) == "QGG" && run.err == Some(orbitClient.getHostScript(installer.postInstallScript).error))
              && (ScriptsFetched(installer) && !InstallerFetched(installer, tempDir) ==>
                    Tags(run.steps) == "QGGI" && run.err == Some(orbitClient.getInstaller(installer.softwareId, tempDir()).error))
              && (InstallerFetched(installer, tempDir) && !InstallScriptWritten(installer, tempDir) ==>
                    Tags(run.steps) == "QGGIWR" && run.err == InstallScriptError(installer, tempDir, exec, installNanos))
              && (InstallScriptWritten(installer, tempDir) && !InstallScriptSaved(installer, tempDir, exec, installNanos) ==>
                    Tags(run.steps) == "QGGIWESR" && run.err == InstallScriptError(installer, tempDir, exec, installNanos))
              && (InstallScriptSaved(installer, tempDir, exec, installNanos) &&
                  !PostScriptWritten(installer, tempDir, exec, installNanos) ==>
                    Tags(run.steps) == "QGGIWESWR" && run.err == PostScriptError(installer, tempDir, exec, postNanos))
              && (PostScriptWritten(installer, tempDir, exec, installNanos) ==> Tags(run.steps) == "QGGIWESWESR" && run.err == PostScriptError(installer, tempDir, exec, postNanos))
              && (run.err.None? <==> PostScriptSaved(installer, tempDir, exec, installNanos, postNanos))
              && (InstallerFetched(installer, tempDir) ==> run.steps[|run.steps| - 1] == RemoveAll(tempDir()))
    {
      if InstallerFetched(installer, tempDir) {
        DownloadedTags(installer, tempDir, exec, installNanos, postNanos);
      } else {
        UndownloadedTags(installer, tempDir, exec, installNanos, postNanos);
      }
    }

    /** Without a download: `QG`, `QGG` or `QGGI`, with the failing call's error, and nothing removed. */
    lemma UndownloadedTags(installer: SoftwareInstaller, tempDir: () -> string, exec: Path -> ExecResult,
                           installNanos: nat, postNanos: nat)
      requires Passed(installer)
      requires !InstallerFetched(installer, tempDir)
      ensures var run := InstallRun(installer, tempDir, exec, installNanos, postNanos);
              && (!InstallScriptFetched(installer) ==>
                    Tags(run.steps) == "QG" && run.err == Some(orbitClient.getHostScript(installer.installScript).error))
              && (InstallScriptFetched(installer) && !ScriptsFetched(installer) ==>
                    Tags(run.steps) == "QGG" && run.err == Some(orbitClient.getHostScript(installer.postInstallScript).error))
              && (ScriptsFetched(installer) ==>
                    Tags(run.steps) == "QGGI" && run.err == Some(orbitClient.getInstaller(installer.softwareId, tempDir()).error))
    {
      PassedTags(installer, tempDir, exec, installNanos, postNanos);
      FetchShape(installer, tempDir, exec, installNanos, postNanos);
      ShapeLiterals();
    }

    /** With a download: `Q` followed by the download shapes of FetchedShape, ending with the removal. */
    lemma DownloadedTags(installer: SoftwareInstaller, tempDir: () -> string, exec: Path -> ExecResult,
                         installNanos: nat, postNanos: nat)
      requires Passed(installer)
      requires InstallerFetched(installer, tempDir)
      ensures var run := InstallRun(installer, tempDir, exec, installNanos, postNanos);
              && (!InstallScriptWritten(installer, tempDir) ==> Tags(run.steps) == "QGGIWR" && run.err == InstallScriptError(installer, tempDir, exec, installNanos))
              && (InstallScriptWritten(installer, tempDir) && !InstallScriptSaved(installer, tempDir, exec, installNanos) ==>
                    Tags(run.steps) == "QGGIWESR" && run.err == InstallScriptError(installer, tempDir, exec, installNanos))
              && (InstallScriptSaved(installer, tempDir, exec, installNanos) &&
                  !PostScriptWritten(installer, tempDir, exec, installNanos) ==>
                    Tags(run.steps) == "QGGIWESWR" && run.err == PostScriptError(installer, tempDir, exec, postNanos))
              && (PostScriptWritten(installer, tempDir, exec, installNanos) ==> Tags(run.steps) == "QGGIWESWESR" && run.err == PostScriptError(installer, tempDir, exec, postNanos))
              && (run.err.None? <==> PostScriptSaved(installer, tempDir, exec, installNanos, postNanos))
              && run.steps[|run.steps| - 1] == RemoveAll(tempDir())
    {
      PassedTags(installer, tempDir, exec, installNanos, postNanos);
      FetchShape(installer, tempDir, exec, installNanos, postNanos);
      ShapeLiterals();
    }

    /**
     * A precondition error is returned as it is, and "do not install" returns
     * nil; in both cases nothing is called after the query.
     */
    lemma PreconditionGates(installer: SoftwareInstaller, tempDir: () -> string, exec: Path -> ExecResult,
                            installNanos: nat, postNanos: nat)
      ensures var run := InstallRun(installer, tempDir, exec, installNanos, postNanos);
              var check := PreconditionDecision(osqueryClient.query(installer.preInstallCondition));
              && (check.err.Some? ==> run == Run([Query(installer.preInstallCondition)], check.err))
              && (check.err.None? && !check.shouldInstall ==> run == Run([Query(installer.preInstallCondition)], None))
    {
    }

    /** The executor's own error never reaches the result: only the output and exit code are used. */
    lemma ExecErrorIgnored(script: HostScript, installerPath: string, exec: Path -> ExecResult,
                           exec': Path -> ExecResult, elapsed: nat)
      requires forall p :: exec(p).output == exec'(p).output && exec(p).exitCode == exec'(p).exitCode
      ensures ScriptRun(script, installerPath, exec, elapsed) == ScriptRun(script, installerPath, exec', elapsed)
    {
    }

    method PreConditionCheck(query: string) returns (shouldInstall: bool, err: Option<Error>)
      modifies this`trace
      ensures trace == old(trace) + [Query(query)]
      ensures Check(shouldInstall, err) == PreconditionDecision(osqueryClient.query(query))
    {
      var res := osqueryClient.query(query);
      trace := trace + [Query(query)];
      var check := PreconditionDecision(res);
      shouldInstall, err := check.shouldInstall, check.err;
    }

    method RunInstallerScript(script: HostScript, installerPath: string, elapsed: nat) returns (err: Option<Error>)
      modifies this`trace, this`execCmdFn
      ensures var run := ScriptRun(script, installerPath, old(execCmdFn).GetOr(osExecCmd), elapsed);
              trace == old(trace) + run.steps && err == run.err
      ensures execCmdFn == if old(execCmdFn).None? && Written(script, installerPath)
                           then Some(osExecCmd) else old(execCmdFn)
    {
      var scriptPath := Join(installerPath, Itoa(script.id));
      var written := writeFile(scriptPath, script.scriptContents);
      trace := trace + [WriteFile(scriptPath, script.scriptContents)];
      if written.Some? {
        return Some(Wrapped("writing script", written.value));
      }
      if execCmdFn.None? {
        execCmdFn := Some(osExecCmd);
      }
      var out := execCmdFn.value(scriptPath);
      trace := trace + [Exec(scriptPath)];
      var payload := ScriptResultPayload(script.executionID, out.output, elapsed / NanosPerSecond, out.exitCode);
      var saved := orbitClient.saveHostScriptResult(payload);
      trace := trace + [SaveHostScriptResult(payload)];
      if saved.Some? {
        return Some(Wrapped("save script result", saved.value));
      }
      return None;
    }

    /** The deferred cleanup: remove the temporary directory, ignoring the result. */
    method RemoveTempDir(tmpDir: string)
      modifies this`trace, this`removeAllFn
      ensures trace == old(trace) + [RemoveAll(tmpDir)]
      ensures removeAllFn == if old(removeAllFn).None? then Some(osRemoveAll) else old(removeAllFn)
    {
      if removeAllFn.None? {
        removeAllFn := Some(osRemoveAll);
      }
      var _ := removeAllFn.value(tmpDir);
      trace := trace + [RemoveAll(tmpDir)];
    }

    /** `installNanos` and `postNanos` are the wall-clock runtimes the two script executions take. */
    method InstallSoftware(installer: SoftwareInstaller, installNanos: nat, postNanos: nat) returns (err: Option<Error>)
      modifies this`trace, this`tempDirFn, this`execCmdFn, this`removeAllFn
      ensures var run := InstallRun(installer, old(tempDirFn).GetOr(osTempDir), old(execCmdFn).GetOr(osExecCmd),
                                    installNanos, postNanos);
              trace == old(trace) + run.steps && err == run.err
      ensures var tempDir := old(tempDirFn).GetOr(osTempDir);
              && tempDirFn == (if old(tempDirFn).None? && Passed(installer) && ScriptsFetched(installer)
                               then Some(osTempDir) else old(tempDirFn))
              && execCmdFn == (if old(execCmdFn).None? && Passed(installer) && InstallScriptWritten(installer, tempDir)
                               then Some(osExecCmd) else old(execCmdFn))
              && removeAllFn == (if old(removeAllFn).None? && Passed(installer) && InstallerFetched(installer, tempDir)
                                 then Some(osRemoveAll) else old(removeAllFn))
    {
      var shouldInstall, checkErr := PreConditionCheck(installer.preInstallCondition);
      PassedRun(installer, tempDirFn.GetOr(osTempDir), execCmdFn.GetOr(osExecCmd), installNanos, postNanos);
      if checkErr.Some? {
        return checkErr;
      }
      if !shouldInstall {
        return None;
      }
      ghost var fetch := FetchRun(installer, tempDirFn.GetOr(osTempDir), execCmdFn.GetOr(osExecCmd), installNanos, postNanos);
      err := FetchAndInstall(installer, installNanos, postNanos);
      AppendSteps(old(trace), [Query(installer.preInstallCondition)], fetch.steps);
    }

    /** The rest of InstallSoftware once the precondition passed: fetch both scripts, then download and run. */
    method FetchAndInstall(installer: SoftwareInstaller, installNanos: nat, postNanos: nat) returns (err: Option<Error>)
      modifies this`trace, this`tempDirFn, this`execCmdFn, this`removeAllFn
      ensures var run := FetchRun(installer, old(tempDirFn).GetOr(osTempDir), old(execCmdFn).GetOr(osExecCmd),
                                  installNanos, postNanos);
              trace == old(trace) + run.steps && err == run.err
      ensures var tempDir := old(tempDirFn).GetOr(osTempDir);
              && tempDirFn == (if old(tempDirFn).None? && ScriptsFetched(installer) then Some(osTempDir) else old(tempDirFn))
              && execCmdFn == (if old(execCmdFn).None? && InstallScriptWritten(installer, tempDir) then Some(osExecCmd) else old(execCmdFn))
              && removeAllFn == (if old(removeAllFn).None? && InstallerFetched(installer, tempDir) then Some(osRemoveAll) else old(removeAllFn))
    {
      FetchCases(installer, tempDirFn.GetOr(osTempDir), execCmdFn.GetOr(osExecCmd), installNanos, postNanos);
      var installScript := orbitClient.getHostScript(installer.installScript);
      trace := trace + [GetHostScript(installer.installScript)];
      if installScript.Err? {
        return Some(installScript.error);
      }
      var postInstallScript := orbitClient.getHostScript(installer.postInstallScript);
      trace := trace + [GetHostScript(installer.postInstallScript)];
      AppendSteps(old(trace), [GetHostScript(installer.installScript)], [GetHostScript(installer.postInstallScript)]);
      assert [GetHostScript(installer.installScript)] + [GetHostScript(installer.postInstallScript)] ==
             [GetHostScript(installer.installScript), GetHostScript(installer.postInstallScript)];
      if postInstallScript.Err? {
        return Some(postInstallScript.error);
      }
      ghost var download := DownloadRun(installer.softwareId, installScript.value, postInstallScript.value,
                                        tempDirFn.GetOr(osTempDir)(), execCmdFn.GetOr(osExecCmd), installNanos, postNanos);
      err := DownloadToTempDir(installer, installScript.value, postInstallScript.value, installNanos, postNanos);
      AppendSteps(old(trace), [GetHostScript(installer.installScript), GetHostScript(installer.postInstallScript)],
                  download.steps);
    }

    /** The rest of InstallSoftware once both scripts are fetched: pick the temporary directory, then download and run. */
    method DownloadToTempDir(installer: SoftwareInstaller, installScript: HostScript, postInstallScript: HostScript,
                             installNanos: nat, postNanos: nat) returns (err: Option<Error>)
      modifies this`trace, this`tempDirFn, this`execCmdFn, this`removeAllFn
      ensures var run := DownloadRun(installer.softwareId, installScript, postInstallScript, old(tempDirFn).GetOr(osTempDir)(),
                                     old(execCmdFn).GetOr(osExecCmd), installNanos, postNanos);
              trace == old(trace) + run.steps && err == run.err
      ensures var tmpDir := old(tempDirFn).GetOr(osTempDir)();
              var downloaded := orbitClient.getInstaller(installer.softwareId, tmpDir);
              && tempDirFn == (if old(tempDirFn).None? then Some(osTempDir) else old(tempDirFn))
              && execCmdFn == (if old(execCmdFn).None? && downloaded.Ok? &&
                                  Written(installScript, downloaded.value)
                               then Some(osExecCmd) else old(execCmdFn))
              && removeAllFn == (if old(removeAllFn).None? && downloaded.Ok? then Some(osRemoveAll) else old(removeAllFn))
    {
      if tempDirFn.None? {
        tempDirFn := Some(osTempDir);
      }
      var tmpDir := tempDirFn.value();
      err := DownloadAndRun(installer.softwareId, installScript, postInstallScript, tmpDir, installNanos, postNanos);
    }

    /** The rest of InstallSoftware from the download on: the download, then the scripts and the deferred removal of `tmpDir`. */
    method DownloadAndRun(softwareId: string, installScript: HostScript, postInstallScript: HostScript, tmpDir: string,
                          installNanos: nat, postNanos: nat) returns (err: Option<Error>)
      modifies this`trace, this`execCmdFn, this`removeAllFn
      ensures var run := DownloadRun(softwareId, installScript, postInstallScript, tmpDir,
                                     old(execCmdFn).GetOr(osExecCmd), installNanos, postNanos);
              trace == old(trace) + run.steps && err == run.err
      ensures var downloaded := orbitClient.getInstaller(softwareId, tmpDir);
              && execCmdFn == (if old(execCmdFn).None? && downloaded.Ok? &&
                                  Written(installScript, downloaded.value)
                               then Some(osExecCmd) else old(execCmdFn))
              && removeAllFn == (if old(removeAllFn).None? && downloaded.Ok? then Some(osRemoveAll) else old(removeAllFn))
    {
      var installerPath := orbitClient.getInstaller(softwareId, tmpDir);
      trace := trace + [GetInstaller(softwareId, tmpDir)];
      if installerPath.Err? {
        return Some(installerPath.error);
      }
      ghost var scripts := ScriptsRun(installScript, postInstallScript, installerPath.value, tmpDir,
                                      execCmdFn.GetOr(osExecCmd), installNanos, postNanos);
      err := RunScripts(installScript, postInstallScript, installerPath.value, tmpDir, installNanos, postNanos);
      AppendSteps(old(trace), [GetInstaller(softwareId, tmpDir)], scripts.steps);
    }

    /** Both script runs, the second only after a successful first, then the deferred removal of `tmpDir` on return. */
    method RunScripts(installScript: HostScript, postInstallScript: HostScript, installerPath: string, tmpDir: string,
                      installNanos: nat, postNanos: nat) returns (err: Option<Error>)
      modifies this`trace, this`execCmdFn, this`removeAllFn
      ensures var run := ScriptsRun(installScript, postInstallScript, installerPath, tmpDir,
                                    old(execCmdFn).GetOr(osExecCmd), installNanos, postNanos);
              trace == old(trace) + run.steps && err == run.err
      ensures execCmdFn == if old(execCmdFn).None? && Written(installScript, installerPath)
                           then Some(osExecCmd) else old(execCmdFn)
      ensures removeAllFn == if old(removeAllFn).None? then Some(osRemoveAll) else old(removeAllFn)
    {
      ghost var first := ScriptRun(installScript, installerPath, execCmdFn.GetOr(osExecCmd), installNanos);
      err := RunInstallerScript(installScript, installerPath, installNanos);
      if err.None? {
        ghost var second := ScriptRun(postInstallScript, installerPath, execCmdFn.GetOr(osExecCmd), postNanos);
        err := RunInstallerScript(postInstallScript, installerPath, postNanos);
        AppendSteps(old(trace), first.steps, second.steps);
        AppendSteps(old(trace), first.steps + second.steps, [RemoveAll(tmpDir)]);
      } else {
        AppendSteps(old(trace), first.steps, [RemoveAll(tmpDir)]);
      }
      RemoveTempDir(tmpDir);
    }
  }
}
