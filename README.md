# Jupyter Lab deployer, modelled in Dafny

`deploy.py` is a one-command deployer for a Jupyter Lab container that runs
under a systemd user service. On each run it does the following:

- With `--stop` it stops the service and does nothing else: no configuration
  is loaded and nothing is prompted for.
- Otherwise it loads a TOML configuration and checks that the three required
  fields are present: the AI API key, the AI base URL and the notebooks
  directory.
- When `--reconfigure` is given or a required field is missing, it prompts for
  the configuration and saves it.
- It then does one of two things:
  - shows the service status (`--status`, or when the service already runs and
    `--rebuild` is not given);
  - runs a full deployment: build the image (with `--rebuild` always, otherwise
    only when it is not already present), create the directories, copy the
    Jupyter configuration templates, write the systemd unit and reload systemd,
    stop the service if it was running, and start it. Only when the start
    succeeds does it enable the service and show its status.

This project models that decision procedure and its pieces:

| file | module | contents |
|---|---|---|
| `pytext.dfy` | `PyText` | `str.strip()` and `str()` of an integer |
| `values.dfy` | `Values` | the parsed configuration (`section → key → value`), lookups, Python truthiness, and the exceptions nothing catches |
| `completeness.dfy` | `Completeness` | `is_config_complete` |
| `prompting.dfy` | `Prompting` | `prompt_config` |
| `unitfile.dfy` | `UnitFile` | the text of the systemd unit and a parser that reads the settings back |
| `commands.dfy` | `Commands` | `run_command`, `check_service_status`, and the "image already exists" test |
| `deployment.dfy` | `Deployment` | `main` and the steps it calls |
| `deployment_facts.dfy` | `DeploymentFacts` | what one invocation of `main` does or never does, for every input |

### Inputs and effects

- **Inputs.** `main` is modelled as a producer of effects. Everything it observes
  is a field of `World`:
  - the stored configuration, which may be absent, parsed or unparseable;
  - the user's answers to the prompts;
  - the paths that exist;
  - the outcome of the two `systemctl is-active` probes;
  - the output of `podman images -q`;
  - the exit status of each command it runs.
- **Effects.** What `main` does to the system is a sequence of `Action`s.
  - An exception that nothing catches ends that sequence with `Crash`.
  - `sys.exit(1)` after an empty API key ends it with `ExitFailure`.
  - `WriteUnit(path, u)` stands for writing `UnitText(u)`. For settings that
    contain no newline, the `UnitFile` module proves that this text
    determines `u`. Settings with newlines in them can render to the same
    text.
- **Specification and methods.** The functions `Plan`, `Settle`,
  `AfterConfig`, `DeployTrace` and the other `…Trace` functions say what each
  step does. The methods (`Deploy`, `BuildImage`, `CreateDirectories`,
  `CopyJupyterConfig` and so on) follow the code step by step, and each method
  is proved to produce exactly its specification.

### What the code does not do

- **Defaults.** Loading the configuration does not fill in defaults
  (deploy.py:64-69). The `ai` and `paths` defaults appear only as the values
  the prompts offer. The `container` default is put straight into the prompted
  configuration when the seed has no `container` section (deploy.py:142).
- **Keeping the stored container settings.** Without `--reconfigure`, an
  incomplete stored configuration is prompted with the empty seed
  (deploy.py:399-403). Its stored `[container]` section (image name, port) is
  therefore replaced by the defaults and saved, without a warning
  (`Prompting.EmptySeedStartsOver`).
- **Failures.** A failing command does not stop the run.
  - `run_command` defaults to `continue_on_error=True`, and every call passes
    or keeps that default (deploy.py:146).
  - A failed build is followed by the rest of the deployment (deploy.py:419-420).
  - Only uncaught exceptions end a run early.
- **`--stop`.** It never checks whether the service is installed. It issues
  the stop command and nothing else (deploy.py:389-392).
- **Re-running.** A plain run that finds the service active only queries it
  and reports its status (deploy.py:411-416). A full deployment happens only
  with `--rebuild` or when the service is not running, and it then always
  rewrites the unit and restarts the service, without comparing with what is
  on disk.
  - The template copies are the exception: an existing file is never
    overwritten.
  - The IPython tree is copied over whatever is there (`dirs_exist_ok=True`).
- **`--reconfigure` on a running service.** Without `--rebuild`, the new
  configuration is saved but the unit is not rewritten, so the running service
  keeps the old settings until the next full deployment (deploy.py:398-416).
- **Saving.** The configuration is not saved atomically. The model records the
  save as one effect.
- **Image tag.** The image test and the build use the fixed tag
  `localhost/jupyter-lab:latest`, but the unit runs `container.image_name`. The
  model keeps the two apart (`Deployment.ImageTag` versus the unit settings).

## Model

| member | source | states |
|---|---|---|
| PyText.Strip | deploy.py:107-110 | The stripped text is the slice of the input that starts at its first non-whitespace character, with only whitespace before and after it; it neither starts nor ends with whitespace, and is empty exactly when the input is all whitespace |
| PyText.StripIdempotent | deploy.py:107-110 | Stripping an already stripped answer changes nothing |
| Completeness.IsConfigComplete | deploy.py:79-88 | The returned labels are exactly the labels of the required fields that are absent or empty, in requirement order; the flag is true exactly when that list is empty |
| Completeness.MissingExactly | deploy.py:81-87 | A requirement's label is reported if and only if its field is absent or falsy, and the reported labels are a subsequence of the requirement labels |
| Completeness.RequiredReportedInOrder | deploy.py:81-88 | The reported labels appear in the order "AI API key", "AI API base URL", "Notebooks directory", and each appears exactly when its field is missing |
| Completeness.CompleteIff | deploy.py:79-88 | A configuration is complete if and only if `ai.api_key`, `ai.base_url` and `paths.notebooks_dir` are all present and truthy |
| Completeness.OnlyRequiredFieldsMatter | deploy.py:82-87 | Two configurations that agree on the required fields get the same verdict and labels; `model` and `container` play no part |
| Completeness.NothingMissingIff | deploy.py:88 | The label list is empty exactly when every requirement is met |
| Prompting.Assemble | deploy.py:133-143 | The assembled record has exactly the sections `ai`, `paths` and `container`; `ai` holds exactly the given key, URL and model, `paths` exactly the given notebooks directory, and `container` the given table |
| Prompting.PromptConfig | deploy.py:91-143 | No configuration exactly when the key answer is empty. Otherwise the record holds exactly these keys: the key as answered, the stripped URL answer, the model (the custom name when "custom" was picked) and the notebooks answer; `container` is the existing section when there is one, else the default one |
| Prompting.PromptedCompleteIff | deploy.py:103-143 | A prompted configuration is complete exactly when the stripped URL and the notebooks directory are non-empty, since the key is never empty |
| Prompting.RepromptKeepsConfig | deploy.py:95-143 | Prompting again from a prompted configuration and accepting every offered default gives the same configuration back, when the model is one of the menu's three named choices |
| Prompting.EmptySeedStartsOver | deploy.py:95-143 | With the empty seed `main` uses for an incomplete configuration, the key must be typed, the container section is the default one and every accepted default is the deployer's own |
| UnitFile.SettingsFrom | deploy.py:263-294 | The unit can be rendered exactly when `paths.notebooks_dir`, `ai.api_key`, `ai.base_url` and `container.image_name` are all present; it then renders their `str()` values; otherwise a KeyError is raised |
| UnitFile.UnitText | deploy.py:263-294 | Reading the rendered unit text back yields the notebooks directory, key, URL and image it was rendered from, when none of them contains a newline; the OpenAI and Anthropic lines both carry the same key and URL |
| UnitFile.UnitTextDeterminesSettings | deploy.py:263-294 | Two different sets of single-line settings never render to the same unit text |
| Commands.RunCommand | deploy.py:146-166 | True exactly on exit status 0; false exactly on a non-zero status with `continue_on_error`; DeploymentError carrying the message exactly on a non-zero status without it |
| Commands.ContinuingNeverRaises | deploy.py:146-166 | With `continue_on_error` set, as at every call site, `run_command` never raises and reports success exactly on status 0 |
| Commands.ServiceStatus | deploy.py:169-181 | Running exactly when `is-active` exited with status 0; the status is its stripped output, or "unknown" when the command could not be run |
| Commands.ImageListed | deploy.py:189-197 | The image counts as present exactly when `podman images -q` printed a non-whitespace character |
| Deployment.LoadConfig | deploy.py:64-69 | A missing file is the empty configuration, a parsed file is returned as parsed with no defaults filled in, and only an unparseable file raises |
| Deployment.MakeDirs | deploy.py:213-224 | One mkdir per directory, in list order |
| Deployment.TemplateCopies | deploy.py:233-244 | Every template copy is a file copy from an existing source onto a destination that does not exist, and every template whose destination is absent and whose source exists is copied |
| Deployment.StopService | deploy.py:328-338 | One stop command; the result is true exactly when it exited with status 0 |
| Deployment.BuildImage | deploy.py:184-206 | Unforced with the image listed, only the lookup happens and the result is true. Otherwise the build runs (after the lookup when unforced) and the result is its success |
| Deployment.CreateDirectories | deploy.py:209-224 | Creates the configuration, cache and notebooks directories in that order. A missing notebooks key raises KeyError, and a non-string value raises TypeError, before anything is created |
| Deployment.CopyJupyterConfig | deploy.py:227-256 | Copies each of the two templates only when the destination is absent and the source exists, then copies the IPython tree whenever its source exists |
| Deployment.InstallSystemdService | deploy.py:259-306 | Writes the unit rendered from the configuration to the service file and reloads systemd whatever the reload's outcome; a missing setting raises before anything is written |
| Deployment.StartService | deploy.py:309-325 | Start, then enable only when the start succeeded; the result is the start's success |
| Deployment.ShowStatus | deploy.py:341-371 | Queries the service; when it is running, formats the port and the notebooks directory (a missing key raises) and shows the logs |
| Deployment.Configure | deploy.py:394-404 | Loads the configuration (an unparseable file raises) and prompts and saves exactly when --reconfigure is given or it is incomplete, seeding the prompts with it only under --reconfigure |
| Deployment.Proceed | deploy.py:406-437 | After configuration: status only under --status; otherwise query the service, report when it runs and --rebuild is absent, else deploy |
| Deployment.FullDeployment | deploy.py:418-437 | Build, directories, copies, unit, restart, in that order; a raising directory or unit step ends the run |
| Deployment.RestartService | deploy.py:426-437 | Stop only when the service was running, start, and show the status only after a successful start |
| Deployment.Deploy | deploy.py:374-437 | One invocation of `main` produces exactly `Plan` |
| DeploymentFacts.StopOnlyStops | deploy.py:389-392 | With --stop the only effect is one stop command, whatever the other flags and the stored configuration |
| DeploymentFacts.UnreadableConfigEndsRun | deploy.py:394-396 | Without --stop, an unparseable configuration file ends the run before any other effect |
| DeploymentFacts.PromptOnlyWhenNeeded | deploy.py:398-404 | A prompt or save happens if and only if --reconfigure is given or the configuration is incomplete. The prompt is seeded with the stored configuration only under --reconfigure. An empty key ends the run; otherwise the prompted configuration is saved |
| DeploymentFacts.StatusOnlyShowsStatus | deploy.py:406-409 | With --status, the run after configuration is exactly the status report; nothing is built, written, started or stopped |
| DeploymentFacts.RunningWithoutRebuildOnlyReports | deploy.py:411-416 | With the service running and no --rebuild, the run is the query followed by the status report, with no deployment step |
| DeploymentFacts.FullDeploymentSteps | deploy.py:418-437 | When nothing raises, a full deployment performs in order: the lookup unless --rebuild, the build when forced or not listed, the three directories, the template copies, the unit write and reload, then the restart |
| DeploymentFacts.RestartGates | deploy.py:426-437 | The restart always starts, stops first exactly when the service was running, and enables exactly when the start succeeded. A failed start is its last effect |
| DeploymentFacts.FaultEndsDeployment | deploy.py:422-424 | A directory or unit step that raises ends the run, and the service is never started |
| DeploymentFacts.BuildOutcomeDoesNotMatter | deploy.py:419-420 | A failed build changes nothing about the rest of the run |
| DeploymentFacts.EnableNeedsStart | deploy.py:314-322 | In every run the service is enabled only when its start succeeded |
| DeploymentFacts.CopiesNeverOverwrite | deploy.py:236-244 | In every run, a template file is copied only from an existing source onto a destination that does not exist |

## Left out

- Running processes is not modelled: `subprocess.run` of `podman`, `systemctl` and `journalctl`. Their exit codes and output are fields of `World`, and `journalctl` is the `ShowLogs` effect.
- A missing executable (FileNotFoundError from `subprocess.run`) is not modelled: every command is assumed to exist and exit with some status. The exception is the `is-active` probe, whose `except Exception` is the `Unavailable` probe.
- The interactive prompts (`questionary`) are not modelled. They become the `Answers` datatype, in which each answer keeps the offered default or replaces it with typed text.
- A prompt cancelled with Ctrl-C (`ask()` returning None) is modelled only for the API key, as an empty answer.
- The model menu is not restricted to its four choices, and `questionary`'s own refusal of a default outside those choices is not modelled.
- Prompting.RepromptKeepsConfig: holds only for a model among the menu's three named choices, because the menu refuses a stored custom name as its default.
- A stored value that is not a string is offered to the prompts as its `str()` text. The source passes the raw TOML value to `questionary`, and what `questionary` does with it is not modelled.
- Reading and writing TOML (`tomllib`, `tomli_w`) is not modelled. The stored file is an oracle, and saving is the `Save` effect. Values are strings, integers and booleans.
- A save that fails is not modelled: for example, `tomli_w` refusing a None model from a cancelled custom-name prompt.
- Floats, dates, arrays and values at the top level of the TOML file are not modelled.
- Filesystem effects are not modelled: `mkdir`, `copy2`, `copytree` and the unit write. The model keeps their targets and the copy-or-skip condition.
- A failing `mkdir` in `create_directories` or a failing copy in `copy_jupyter_config` is reported and skipped by the source (deploy.py:220-224, 241-245, 252-256). The model does not record that failure, and nothing in the run depends on it.
- A failure to create the unit's directory or to write the unit (deploy.py:296-297) is not caught: it raises and ends the run before the daemon reload and the start. The model's `WriteUnit` never fails, so the model never produces that crash.
- A failure to create the configuration directory or to write the file in `save_config` (deploy.py:72-74) is likewise not caught and ends the run. The model's `Save` never fails.
- `Path` normalisation of the notebooks directory is not modelled. The path is kept as the configured string.
- Console and panel output (`rich`) is not modelled.
- The two-second pause after a successful start is not modelled.
- The `typer` command-line parsing is not modelled; the four flags are the `Flags` record.
- The Jupyter and IPython configuration templates are not modelled: they only configure Jupyter itself.
- Deployment.ShowStatus: formatting `container.port` into the status text is not modelled. Only the KeyError that a missing key raises is kept.
