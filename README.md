# action-beanstalk-deploy, modelled in Dafny

This project models the logic of `action.py`, a script that deploys a
multicontainer application to AWS Elastic Beanstalk. The script does the following:

1. It builds the `Dockerrun.aws.json` (version 2) manifest from the configured
   containers.
2. It names the deployment archive after the version label.
3. It reads boolean flags from environment variables.
4. After triggering the environment update, it waits for the environment to
   become `Ready`. It then accepts the deployment only when the health colour
   is `Green` and the version is deployed in the environment.

Modules:

- `Wrappers` (`wrappers.dfy`): the `Option` datatype.
- `Dockerrun` (`dockerrun.dfy`) covers the following:
  - the `PortMapping` and `ContainerConfig` records, with the defaults memory
    1024 and no links;
  - the image reference `base:version` and its inverse `TagOf`;
  - the manifest as a value, built by `PrepareDockerrunFile`.
- `Config` (`config.dfy`) covers the following:
  - the `ConfigFromEnv` and `ConfigFromFile` records;
  - the archive name `deploy-<label>.zip` and its inverse `ArchiveLabel`;
  - `DeploymentBundle`, the archive name and manifest that a run builds from
    the two records;
  - the flag parser `CheckBool`.
- `Rollout` (`rollout.dfy`) covers the following:
  - the polling loop `WaitForUpdateIsReady`, a `while` loop proved against the
    specification function `Poll`;
  - the colour/deployment gate;
  - the whole run `WaitUntilDeploymentSuccessfulFinished`, proved against
    `Deploy`.

  The environment-health lookups are an oracle `health: nat -> HealthSnapshot`,
  where `health(k)` is the answer to the k-th lookup. The answer of the
  "is the version deployed" lookup is the boolean `versionDeployed`. Every
  lookup, every pause and the deployment lookup are recorded in order as a
  trace of `Effect`s. Lemmas about that trace state how many lookups happen,
  where the pauses fall, and whether the deployment lookup is made.

The repository's test files exercise a later revision of `action.py`, not the
one modelled here: test_action.py:12-23 and action_test.py:4 use names that do
not exist in it (`Config`, `BeanstalkApplication`, `ApplicationVersion`,
`ContainerMount`). That revision gets or creates the application version, skips
the update when the version is already active in the environment
(test_action.py:140-147), reads the event log (`get_events`) and turns mounts
into volumes. The `action.py` modelled here does none of this. It always
creates the version, always updates the environment and always waits, and the
model follows it.

## Model

| member | source | states |
|---|---|---|
| `Dockerrun.ContainerDefaults` | action.py:26-32 | A container configured without memory or links gets memory 1024 and an empty links list |
| `Dockerrun.ImageUrl` | action.py:34-35 | The image reference is the base name, then one `:`, then the version, with nothing else |
| `Dockerrun.TagOfImageUrl` | action.py:34-35 | Parsing the tag back out of an image reference gives the version it was built from |
| `Dockerrun.ImageUrlOfTag` | action.py:34-35 | Any reference of the form `base:tag` is exactly the image reference of that tag |
| `Dockerrun.ImageUrlInjective` | action.py:34-35 | Different versions give different image references for the same container |
| `Dockerrun.PortMappings` | action.py:83-89 | One port-mapping entry per configured port, in order, with `hostPort` = host and `containerPort` = container |
| `Dockerrun.PortsOfPortMappings` | action.py:83-89 | Reading the ports back from a definition's port mappings gives exactly the configured ports |
| `Dockerrun.Definitions` | action.py:75-93 | One definition per container, in order. Each has the container's name, the image reference of the version, an empty environment, `essential` true, and the container's links and memory as `memoryReservation` |
| `Dockerrun.PortsOf` | action.py:83-89 | Reading ports back from a `portMappings` list gives one port per entry, in order, with host = `hostPort` and container = `containerPort` |
| `Dockerrun.PortMappingsOfPortsOf` | action.py:83-89 | Every `portMappings` list is the one built from the ports it publishes, so `PortsOf(m) == ports` iff `m == PortMappings(ports)` |
| `Dockerrun.DefinitionsRecoverable` | action.py:75-93 | Each definition's image has the version as its tag, and its port mappings give back the container's ports |
| `Dockerrun.PrepareDockerrunFile` | action.py:71-94 | The manifest always has version 2 and no volumes, whatever the input. It has exactly one definition per container, in order, carrying that container's fields and ports and the deployed version as image tag |
| `Dockerrun.DefinitionsAppend` | action.py:75-93 | The definitions of two concatenated container lists are the first list's definitions followed by the second's (order is kept) |
| `Config.DeploymentArchive` | action.py:46-48 | The archive name is `deploy-`, then the version label, then `.zip` |
| `Config.ArchiveLabelOfDeploymentArchive` | action.py:46-48 | Parsing the label back out of the archive name gives the version label |
| `Config.DeploymentArchiveOfLabel` | action.py:46-48 | A name of the form `deploy-<label>.zip` is exactly the archive name of that label |
| `Config.DeploymentBundle` | action.py:247-252 | The archive name and the manifest are made from the two configuration records. Parsing the archive name gives the version label back, and there is one definition per configured container, in order, with its name and its image tagged with that same label |
| `Config.CheckBool` | action.py:226-227 | A flag is false exactly for `""`, `"0"`, `"False"`, `"false"` and true for every other string |
| `Config.CheckBoolExamples` | action.py:226-227 | Examples: the four false spellings read as false; `"true"`, `"True"`, `"1"`, `"FALSE"`, `"no"`, `"off"` and `" "` read as true |
| `Rollout.Steps` | action.py:193 | The step count is ceil(timeout / wait time): `(s-1)*wait < timeout <= s*wait` |
| `Rollout.BudgetIsLeast` | action.py:193-194 | The lookup budget is the fewest lookups whose pauses cover the timeout |
| `Rollout.DefaultBudget` | action.py:189-194 | With the default timeout of 1200 s and pause of 8 s, the budget is 150 lookups |
| `Rollout.FirstReady` | action.py:194-199 | The index of the first Ready snapshot among the first `n` lookups. When there is none, no snapshot among them is Ready |
| `Rollout.SleepingLookups` | action.py:194-201 | The effects of `k` lookups that were not Ready: lookup 0, pause, lookup 1, pause, and so on, with each lookup numbered by its step |
| `Rollout.WaitForUpdateIsReady` | action.py:192-203 | The loop returns the first Ready snapshot within the budget, right after its lookup and with no pause. Otherwise it pauses after every lookup and times out after the last one. Result and trace equal `Poll` |
| `Rollout.PollLookups` | action.py:193-203 | Polling returns a snapshot iff one of the first `n` is Ready. It returns the first Ready one, after k+1 lookups. On a timeout it has made exactly `n` lookups. It never makes more than `n` |
| `Rollout.PollTraceShape` | action.py:194-203 | The trace alternates lookups numbered 0, 1, 2… and pauses. It ends on a lookup iff the result is Ready, and that lookup's snapshot is the one returned. A timeout ends with the pause after lookup n-1 |
| `Rollout.Gate` | action.py:207-212 | Success iff Green and deployed. A non-Green colour fails as unhealthy and makes no deployment lookup. Green and not deployed fails as not deployed. The deployment lookup is made iff the colour is Green |
| `Rollout.WaitUntilDeploymentSuccessfulFinished` | action.py:185-214 | The outcome and trace of a whole run equal `Deploy`: poll, then the gate on the returned snapshot |
| `Rollout.DeploySucceedsIff` | action.py:205-214 | A run succeeds exactly when a Ready snapshot arrives within the budget, the first one is Green, and the version is deployed |
| `Rollout.DeployTimesOutIff` | action.py:194-205 | A run times out exactly when none of the first `n` snapshots is Ready. Its trace is then `n` lookups, each followed by a pause, and has no deployment lookup |
| `Rollout.NonGreenFailsBeforeDeploymentCheck` | action.py:207-209 | A non-Green first Ready snapshot fails the run with that snapshot, and the deployment lookup is never made |
| `Rollout.GreenConsultsDeploymentCheck` | action.py:207-214 | A Green first Ready snapshot makes exactly one deployment lookup, as the last effect. The run succeeds iff the version is deployed, and otherwise fails as not deployed |

## Left out

- All AWS calls are not modelled: the S3 upload (action.py:103-108), creating the application version (action.py:151-161), the health and environment lookups (action.py:164-182) and the environment update (action.py:217-222). The health lookup's answers are the `health` oracle. The deployment lookup's answer is the `versionDeployed` parameter.
- Shell and docker commands (`run_command`, `run_commands`, `build_image`, `upload_image_to_ecr`, `build_and_upload_images`, action.py:61-68 and 130-148) are subprocess I/O and are not modelled.
- Writing the zip archive and formatting the manifest as JSON text (action.py:97-127) are not modelled. The manifest is modelled as a value.
- Reading environment variables and decoding the configuration file in `prepare_config` (action.py:225-234) are not modelled. Only `CheckBool` and the configuration records are.
- `main` (action.py:237-272) is straight-line sequencing of I/O calls and is not modelled. It parses `wait_for_deployment` but never consults it, so it always waits; the model adds no skip.
- `time.sleep` is recorded as a `Sleep` effect in the trace; no time passes. Logging, including the per-step log line and the warning that dumps the health snapshot (action.py:197, 208), is not modelled.
- Rollout.Outcome: the two `RuntimeError` messages (action.py:209, 212) are not carried. The two failures are distinguished as `Unhealthy` and `NotDeployed` instead.
- Rollout.Steps: Python computes `math.ceil` on a float quotient. The model uses exact integer ceiling division, which agrees except where the float loses precision (operands beyond 2^53). A wait time of zero or less is excluded by `requires waitTime > 0`. In Python, zero raises `ZeroDivisionError` and a negative value flips the budget. The only caller passes the default 8.
- Missing `Status` or `Color` keys in a health answer (a `KeyError` in Python) are not modelled. A snapshot always has both fields.
