# Fleet command-and-control core in Dafny

This project models three parts of Fleet's command-and-control loop and proves properties about them:

- **The Apple MDM commander** (`apple_mdm.dfy`, module `AppleMdm`).
  - It builds typed MDM commands and works out who a profile command is attributed to.
  - It persists each command through the MDM storage, then sends an APNs push to the target hosts.
  - It reports the hosts whose push failed as an APNs delivery error.
- **The agent's software installer runner** (`installer.dfy`, module `Installer`).
  - It checks an osquery precondition and fetches the install and post-install scripts.
  - It downloads the installer into a temporary directory.
  - It writes, executes and reports each script.
  - Once the download has succeeded, it removes the temporary directory on every return.
- **The agent client's config cache and config receivers** (`service.dfy`, module `Service`), as the client's tests pin them down.
  - A fresh cache entry is served as it is.
  - Every registered receiver runs on every call.
  - The result keeps every receiver's failure.

Shared pieces:

- `errors.dfy` (module `Errors`) models error values and the library operations the code relies on:
  - `errors.Is`;
  - wrapping with a message (`ctxerr.Wrap`, `fmt.Errorf` with `%w`);
  - joining several failures into one aggregate.
- `wrappers.dfy` holds `Option` and `Result`.

Collaborators are injected values, each modelled as the answers it gives, as a function of the call's arguments:

- MDM storage, the APNs pusher, the osquery client and the server client;
- the file system, the script executor and the config refetch.

Every call made to a collaborator is recorded, in order, in a ghost trace of the object that makes it (`Commander.calls`, `Runner.trace`, `OrbitClient.invocations`/`refreshes`). The one exception is the runner's temporary-directory hook (`os.TempDir`): it cannot fail, so it is not recorded, and the directory it gives appears in the download and removal steps. The contracts state the order of effects against these traces. Each imperative operation is a method, proved against a specification function or predicate:

- `Enqueued` and `Notified` for the commander;
- `InstallRun` and its phases `FetchRun`, `DownloadRun`, `ScriptsRun` and `ScriptRun` for the runner;
- `Outcomes`/`Join` for the receivers.

Lemmas then prove the promised properties about those specifications. The runner's lemmas describe a trace by one letter per call: `Q` query, `G` script fetch, `I` installer download, `W` write script, `E` execute, `S` submit result, `R` remove temporary directory.

## Model

| member | source | states |
|---|---|---|
| AppleMdm.Command.RequestType | server/mdm/apple/commander.go:56 | Each command kind sends its own RequestType. The only shared one is "InstallEnterpriseApplication", sent by both the manifest-URL and the embedded-manifest variants (`commander.go:198`, `commander.go:223`). |
| AppleMdm.StatusCode | server/mdm/apple/commander.go:320 | A delivery error always reports status 502, whatever hosts failed. |
| AppleMdm.ProfileCreator | server/mdm/apple/commander.go:74-90 | Attribution is exclusive. A failed lookup gives (no user, not fleet initiated, the error). A stored id of 0 gives (no user, fleet initiated, no error). Any other id gives (that id, not fleet initiated, no error). |
| AppleMdm.Commander.GetProfileCreator | server/mdm/apple/commander.go:74-90 | It makes exactly one storage call, GetProfileUserID for the identifier, and returns ProfileCreator of its answer. |
| AppleMdm.CollectFailed | server/mdm/apple/commander.go:292-299 | The failed list names every host whose response carries an error, each exactly once, and no other host. The order is left free, as Go's map iteration leaves it. |
| AppleMdm.Commander.SendNotifications | server/mdm/apple/commander.go:286-305 | It pushes once, to the given hosts. A top-level push error is returned wrapped with "commander push". Otherwise the result is nil if and only if no host failed. If some host failed, the result is a delivery error that lists exactly the failed hosts, has a nil Err and has status code 502. |
| AppleMdm.NotifiedWrapped | server/mdm/apple/commander.go:279-281 | Wrapping the push outcome with one more message keeps its meaning: a nil outcome stays nil, and a delivery error stays a delivery error for the same hosts. |
| AppleMdm.Commander.EnqueueCommand | server/mdm/apple/commander.go:267-284 | A decode failure returns "decoding command" and calls nothing. Otherwise the storage enqueue is called first. Its failure returns "enqueuing command" with no push. On success, a push to the same host list follows, and its outcome is returned wrapped with "sending notifications". |
| AppleMdm.Commander.EnqueueOrder | server/mdm/apple/commander.go:264-283 | The order of calls: nothing is called if decoding fails, and the storage call comes first otherwise. A push happens if and only if decoding and storage both succeeded. It goes to the same hosts and is the last call. A nil result means the command was stored and pushed with no top-level error and no failed host. |
| AppleMdm.Commander.EnqueuedWrapped | server/mdm/apple/commander.go:70-71 | Wrapping EnqueueCommand's error with a caller's message keeps every step of its description. |
| AppleMdm.Commander.InstallProfile | server/mdm/apple/commander.go:46-72 | The attribution lookup comes first. If it fails, the error is returned wrapped with "commander install profile get user id", and there is no enqueue and no push. Otherwise an InstallProfile command carrying the given uuid and profile is enqueued with the looked-up attribution, and the error is wrapped with "commander install profile". |
| AppleMdm.Commander.RemoveProfile | server/mdm/apple/commander.go:93-117 | Same as InstallProfile, for a RemoveProfile command with the given identifier and its own two messages. |
| AppleMdm.Commander.DeviceLock | server/mdm/apple/commander.go:119-151 | Decode, then EnqueueDeviceLockCommand with the PIN, then a push to the single host. Each failure stops the later steps and returns its own message. |
| AppleMdm.Commander.EraseDevice | server/mdm/apple/commander.go:153-187 | Decode, then EnqueueDeviceWipeCommand, then a push to the single host. The command carries obliteration behaviour "Default". The storage call does not receive the PIN. Each failure stops the later steps. |
| AppleMdm.Commander.InstallEnterpriseApplication | server/mdm/apple/commander.go:189-207 | The command carries the given uuid and manifest URL. It is enqueued with no user and fleet-owned true. |
| AppleMdm.Commander.InstallEnterpriseApplicationWithEmbeddedManifest | server/mdm/apple/commander.go:214-234 | A marshal failure returns "marshal command payload plist" and calls nothing. Otherwise the command is enqueued with no user and fleet-owned false. |
| AppleMdm.Commander.AccountConfiguration | server/mdm/apple/commander.go:236-259 | The command carries the uuid, full name, user name and a locked primary account. It is enqueued with no user and fleet-owned true. |
| Errors.Wrap | server/mdm/apple/commander.go:289 | Wrapping keeps nil as nil. A non-nil error gets the message, and the original is still found with errors.Is. |
| Errors.WrapAll | server/mdm/apple/commander.go:66 | Wrapping with several messages keeps nil as nil. The innermost error is still found with errors.Is. |
| Errors.JoinNilIffNoFailure | server/service/orbit_client_test.go:68-69 | The aggregate of a list of outcomes is nil if and only if every outcome is nil. |
| Errors.JoinKeepsEveryFailure | server/service/orbit_client_test.go:101-103 | Every individual failure is found in the aggregate with errors.Is. |
| Installer.Itoa | orbit/pkg/installer/installer.go:136 | The script file name is the id's canonical decimal form: a non-empty string of digits whose decimal value is the id, with no leading zero. |
| Installer.ItoaInjective | orbit/pkg/installer/installer.go:136 | Two script ids give the same file name only if they are equal. |
| Installer.PreconditionDecision | orbit/pkg/installer/installer.go:117-132 | A transport error or a non-zero status gives an error and no install. Status 0 installs if and only if at least one row came back, with no error. |
| Installer.Runner.PreConditionCheck | orbit/pkg/installer/installer.go:117-132 | It makes exactly one query and returns PreconditionDecision of the answer. |
| Installer.Runner.ScriptRun | orbit/pkg/installer/installer.go:134-162 | The script is written at the installer path joined with the script id. A failed write returns the write's error wrapped as "writing script", and nothing is executed or submitted. Otherwise the script is executed and exactly one result is submitted. The result carries the execution id, the output, the runtime in whole seconds and the exit code. The error returned is the submission's error wrapped as "save script result", so it is nil exactly when the submission succeeded. |
| Installer.Runner.ExecErrorIgnored | orbit/pkg/installer/installer.go:148-159 | The executor's own error never changes the calls made or the error returned. |
| Installer.Runner.ScriptError | orbit/pkg/installer/installer.go:135-161 | The error of one script run is nil exactly when the script was written and the server accepted its result. An unwritten script gives "writing script" wrapping the write's error. A written script's error is "save script result" wrapping the submission's error. |
| Installer.Runner.ScriptTags | orbit/pkg/installer/installer.go:136-159 | One script run is `W` if the write failed and `WES` otherwise. It succeeds exactly when the script was written and the server accepted its result. |
| Installer.Runner.RunInstallerScript | orbit/pkg/installer/installer.go:134-162 | It makes the calls of ScriptRun and returns its error. The executor hook is set to the default exactly when it was nil and the script was written. |
| Installer.Runner.RemoveTempDir | orbit/pkg/installer/installer.go:97-102 | It removes the given directory, once. The removal hook is set to the default if it was nil. |
| Installer.Runner.ScriptsShape | orbit/pkg/installer/installer.go:96-114 | After the download, each cause gives one shape and one error. A failed write of the install script gives `WR` and that script's ScriptError. A rejected install-script result gives `WESR` and the same error: the post-install script is not attempted. After an accepted install script, a failed write of the post-install script gives `WESWR` and the post-install script's ScriptError. Otherwise the run is `WESWESR` and returns the post-install script's ScriptError. The result is nil exactly when both results were accepted. The removal is always last. |
| Installer.Runner.RunScripts | orbit/pkg/installer/installer.go:96-114 | It makes the calls of ScriptsRun and returns its error. It updates the executor and removal hooks accordingly. |
| Installer.Runner.DownloadShape | orbit/pkg/installer/installer.go:91-114 | A failed download gives `I` and the download's own error, with no removal. After a successful download, each cause of ScriptsShape gives its shape prefixed by `I` and the same script error. Nil means both results were accepted, and the removal is last. |
| Installer.Runner.DownloadedScripts | orbit/pkg/installer/installer.go:96-114 | For a download that succeeded at a given installer path, each script-phase cause gives its shape prefixed by `I` and the failing script's ScriptError. Nil means both results were accepted, and the removal is last. |
| Installer.Runner.DownloadAndRun | orbit/pkg/installer/installer.go:91-114 | It makes the calls of DownloadRun and returns its error. The removal hook is touched only after a successful download. |
| Installer.Runner.DownloadToTempDir | orbit/pkg/installer/installer.go:86-114 | The directory used is what the temporary-directory hook returns. A nil hook is first set to the default. It then makes the calls of DownloadRun for that directory. |
| Installer.Runner.FetchAndInstall | orbit/pkg/installer/installer.go:76-114 | It makes the calls of FetchRun and returns its error. The temporary-directory hook is set only once both scripts were fetched. |
| Installer.Runner.FetchShape | orbit/pkg/installer/installer.go:76-114 | After a passed precondition, each step runs only if the one before it succeeded. A failed install-script fetch gives `G` and that fetch's error; the post-install script is not fetched. A failed post-install fetch gives `GG` and its error. A failed download gives `GGI` and its error. A failed install-script write gives `GGIWR` and a rejected install-script result `GGIWESR`, both with the install script's ScriptError. A failed post-install write gives `GGIWESWR`; otherwise the run is `GGIWESWESR`; both return the post-install script's ScriptError. The result is nil exactly when every step succeeded. The removal is last once the installer was downloaded. |
| Installer.Runner.FetchedShape | orbit/pkg/installer/installer.go:86-114 | Once both scripts were fetched: a failed download gives `GGI` and its error. Each script-phase cause gives its shape behind `GGI` and the failing script's ScriptError. Nil means every step succeeded, and the removal is last after a download. |
| Installer.Runner.FetchedDownloaded | orbit/pkg/installer/installer.go:96-114 | Once the installer was downloaded, each script-phase cause gives its shape behind `GGI` and the failing script's ScriptError. Nil means both results were accepted, and the removal is last. |
| Installer.Runner.FetchedScripts | orbit/pkg/installer/installer.go:96-114 | The same as FetchedDownloaded, stated for the fetched scripts and the installer path themselves: shape behind `GGI`, the failing script's ScriptError, nil exactly when both results were accepted, and the removal last. |
| Installer.Runner.PassedShape | orbit/pkg/installer/installer.go:76-114 | After a passed precondition, the run is `Q` followed by FetchShape's shape for the same cause. It returns the same error: the failing fetch's or download's own error, or the failing script's ScriptError. |
| Installer.Runner.UndownloadedTags | orbit/pkg/installer/installer.go:76-94 | Without a download: a failed install-script fetch gives `QG`, a failed post-install fetch `QGG`, and a failed download `QGGI`, each with that call's own error. Nothing is removed. |
| Installer.Runner.DownloadedTags | orbit/pkg/installer/installer.go:96-114 | With a download: a failed install-script write gives `QGGIWR` and a rejected install-script result `QGGIWESR`, both with the install script's ScriptError. A failed post-install write gives `QGGIWESWR`; otherwise the run is `QGGIWESWESR`; both return the post-install script's ScriptError. Nil means both results were accepted. The removal of the hook's directory is last. |
| Installer.Runner.StepOrder | orbit/pkg/installer/installer.go:66-114 | The query comes first, and each later step runs only if every earlier one succeeded. A failed or negative precondition gives `Q` and the precondition's own result. Each failing call gives its own shape (`QG`, `QGG`, `QGGI`, `QGGIWR`, `QGGIWESR`, `QGGIWESWR`). A failed fetch or download returns that call's error. A script-phase failure returns the failing script's ScriptError: the wrapped write error or the wrapped submission error. The result is nil exactly when the precondition said not to install or every step succeeded. The directory is removed, last, once the download succeeded. |
| Installer.Runner.PreconditionGates | orbit/pkg/installer/installer.go:67-74 | A precondition error is returned as it is, and "do not install" returns nil. In both cases nothing follows the query. |
| Installer.Runner.InstallSoftware | orbit/pkg/installer/installer.go:66-115 | It makes the calls of InstallRun for the hooks it starts with, and returns its error. Each hook is set to its default exactly when it was nil and the code reached its first use. |
| Service.Fresh | server/service/orbit_client_test.go:18 | An entry stamped in the future is fresh. An entry at least the TTL old is stale. |
| Service.Outcomes | server/service/orbit_client_test.go:55-62 | There is one outcome per registered receiver, in registration order: what that receiver's Run returns for the config. |
| Service.RunOutcome | server/service/orbit_client_test.go:68-69 | The result of running the receivers is nil if and only if no receiver failed. Every receiver's failure is found in it with errors.Is. |
| Service.OrbitClient.GetConfig | server/service/orbit_client_test.go:13-35 | A fresh entry is returned as it is, config and error alike, with no refetch and no change to the cache. A stale entry is replaced by the refetch's answer, stamped with the current time. |
| Service.OrbitClient.RegisterConfigReceiver | server/service/orbit_client_test.go:64-66 | The receiver is appended, with no de-duplication. |
| Service.OrbitClient.RunConfigReceivers | server/service/orbit_client_test.go:50-73 | Every registered receiver is called exactly once, in registration order, whatever the others return. The result is the aggregate of their outcomes. |
| Service.ClientWithConfig | server/service/orbit_client_test.go:37-42 | The tests' client holds the given config and no error, stamped an hour ahead, so the entry is fresh, and it has no receivers. |
| Service.ServeCachedConfig | server/service/orbit_client_test.go:15-22 | A fresh entry holding a config gives that config and no error. |
| Service.ServeCachedError | server/service/orbit_client_test.go:25-33 | A fresh entry holding (nil config, error) gives that error and a nil config. |
| Service.RunSucceedingReceivers | server/service/orbit_client_test.go:50-73 | With two succeeding receivers run on the configuration the client's cache returns, both are called, in order, and the result is nil. |
| Service.RunFailingReceivers | server/service/orbit_client_test.go:75-107 | With receivers registered as [fail1, ok1, fail2, ok2] and run on the cached configuration, all four are called, in order. The result is found to be both err1 and err2 with errors.Is. |

## Left out

- The commander's property-list text is not modelled. This covers the `fmt.Sprintf` templates, base64 encoding of the profile, `mdm.DecodeCommand` and `plist.Marshal`. A command is a structured `Command` value. Decoding and marshalling are abstract partial functions that either accept it or give an error.
- `GenerateRandomPin` is random and not part of this model. The PIN is an input of DeviceLock and EraseDevice, and nothing is claimed about its length or digits.
- `APNSDeliveryError.Error` formatting and all error message text are not modelled. Errors are values; messages are only the wrap labels.
- Logging (`slog`, `print`) and `context.Context` are not modelled.
- Concurrency is not modelled. This covers the APNs push fan-out inside the pusher and the locking of the client's config cache.
- Real persistence, the APNs transport, the osquery socket client (`NewRunner`), `os.WriteFile`, `os.RemoveAll`, `os.TempDir` and `scripts.ExecCmd` are collaborators. Their answers are parameters of the model.
- Collaborators answer deterministically for given arguments. A collaborator asked the same question twice gives the same answer.
- The wall-clock runtime of each script is an input in nanoseconds. `time.Now`/`time.Since` are not modelled.
- Errors.Wrap: `ctxerr.Wrap` is taken to return nil for a nil cause. The commander's success paths depend on it (`commander.go:71`), and its implementation is not part of this model.
- Installer.PreconditionDecision: the non-zero-status error is wrapped by `ctxerr.Wrap` with no message (`installer.go:124`). It is represented by the status error itself, without a wrapper.
- Installer.Runner.ScriptRun: the runtime is whole seconds by truncating division of the elapsed nanoseconds. The float64 rounding of `duration.Seconds()` is not modelled.
- Installer.Runner.ScriptRun: `int(script.ID)` is the id as an unbounded natural. Overflow of the conversion is not modelled.
- A nil script returned by `GetHostScript` together with a nil error would make the source dereference nil. The model's server client always returns a script or an error.
- Installer.PreconditionDecision: a query answer of `(nil, nil)`, or one with a nil `Status`, makes `res.Status.Code` (`installer.go:123`) dereference nil. The model's query reply always carries a status when it carries no error, so this panic is not modelled.
- AppleMdm.Commander.SendNotifications: a nil `*push.Response` in the pusher's map makes `response.Err` (`commander.go:296`) dereference nil. The model's push reply holds a response value for every host, so this panic is not modelled.
- The client's implementation file is not part of this model. Its behaviour is taken from the tests in `server/service/orbit_client_test.go`.
- Service.Fresh: the exact freshness rule and its boundary are not visible. The model uses `now - lastUpdated < ttl`, which is enough for every test: an entry stamped in the future is always fresh.
- Service.OrbitClient.GetConfig: the stale path is a refetch by an abstract collaborator whose answer becomes the new entry. How the real client refetches is not modelled.
- Service.OrbitClient.RunConfigReceivers: the config the receivers receive is a parameter. How the client obtains it is not visible. The aggregate is modelled as an `errors.Join`-style list of the failures in order, which is what the tests' `ErrorIs` checks need.
