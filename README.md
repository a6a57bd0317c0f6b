# Glasgow GitOps admin scripts, modelled in Dafny

The repository runs a four-machine k3s home cluster called Galactica. The
control plane is `adama` (192.168.1.20), and `boomer`, `apollo` and
`starbuck` (.21 to .23) are workers. Six Python scripts administer it:

- `admin/reset_cluster.py` wipes k3s from every node, reinstalls the
  control plane, polls its health, fetches the join token and rejoins
  the workers.
- `admin-scripts/galactica_on_and_off.py` powers the cluster off
  (cordon, shut down the workers, then the control plane) and on (wait
  for the control plane, uncordon the workers).
- `admin/shutdown_cluster.py` drains every node and then halts every
  machine.
- `admin/cleanup_longhorn.py` unmounts stale Longhorn volumes, restarts
  k3s on each node, then deletes the application pods.
- `admin/cluster_manager.py` scales, restarts and syncs the applications
  of `glasgow-prod`. It also resets the namespace, uncordons the nodes
  and shows status.
- `admin/quick_check.py` lists the cluster's resources and parses the
  tables kubectl prints.

The scripts do nothing but issue commands. Each run is therefore modelled
by its **trace**: the sequence of `Run(target, cmd)` events (to the local
shell or over ssh to an address) and `Delay(seconds)` events, one for
each `time.sleep`. What a command answers comes from an **oracle**
`nat -> Reply`. The command at position `k` of the trace gets reply
`o(k)`, which is either `Exited(code, stdout)` or `Raised` (the call
threw). Each script's loops are `method`s that thread the trace through.
Their `ensures` tie the trace, the collected errors and the exit status
to a specification function. Lemmas then prove what the scripts promise
about those functions: ordering, counts, gates, bounds, round trips.

Modules, one per file:

- `Fleet`: nodes, the transport and trace helpers.
- `Text`: the Python string operations the scripts use, namely
  `strip`, `split`, `lower`, `count`, `replace` and `join`.
- `ResetCluster`, `PowerCycle`, `ShutdownCluster`, `LonghornCleanup`,
  `AppManager` and `HealthCheck`: one per script, in that order.

## Model

| member | source | states |
|---|---|---|
| Fleet.WorkersComplete | admin/reset_cluster.py:207-210 | no worker-role host of `HOSTS` is missing from the workers the joins go to |
| Fleet.GalacticaRoles | admin/reset_cluster.py:9-14 | in the fleet list the master is `adama`, first, and the other three hosts are the workers in order |
| Text.StripShape | admin/quick_check.py:15 | `strip()` removes whitespace from both ends only: the result is a slice whose ends are not whitespace, and it is empty iff the string is blank |
| Text.LowerIsYes | admin/shutdown_cluster.py:59 | `answer.lower() == "yes"` holds exactly for the eight case variants of "yes" |
| Text.SplitLength | admin/quick_check.py:136 | `split('\n')` yields one more piece than there are line breaks |
| Text.JoinSplit | admin/cluster_manager.py:101 | joining the pieces of a split with the separator gives the string back |
| Text.SplitJoin | admin/cluster_manager.py:137 | splitting a join of separator-free words gives the words back |
| Text.WordsEmptyIffBlank | admin/quick_check.py:41-43 | `line.split()` is empty iff the line is all whitespace |
| Text.StripNonEmptyIffWords | admin/quick_check.py:67-70 | a line passing the `line.strip()` test always has a `parts[0]` |
| Text.RemoveAllLength | admin/cluster_manager.py:104 | `replace(pat, "")` deletes exactly the counted non-overlapping occurrences |
| Text.CountBound | admin/quick_check.py:27 | `count(pat)` occurrences never overlap, so each uses up its own characters |
| ResetCluster.RunSsh | admin/reset_cluster.py:17-35 | one command to the host, which succeeds iff it exits with status 0 |
| ResetCluster.UninstallScript | admin/reset_cluster.py:62-66 | the uninstall script is `k3s-uninstall.sh` iff the node is the master, and `k3s-agent-uninstall.sh` otherwise |
| ResetCluster.CleanupNode | admin/reset_cluster.py:38-70 | all 10 cleanup commands and then the uninstall run whatever fails; one error per failed command, so at most 11 |
| ResetCluster.RunEach | admin/reset_cluster.py:56-59 | every cleanup command is sent in order, and the errors are the messages of the ones that failed |
| ResetCluster.FailedCount | admin/reset_cluster.py:56-59 | the collected errors are exactly as many as the failed commands |
| ResetCluster.FailuresBound | admin/reset_cluster.py:43-70 | a node can never report more failures than commands sent |
| ResetCluster.NodeScriptSplit | admin/reset_cluster.py:56-68 | a node's trace is the cleanup commands then the uninstall; its errors are the cleanup errors plus the uninstall error iff the uninstall failed |
| ResetCluster.RunChecks | admin/reset_cluster.py:119-129 | health checks run in order and stop at the first one that is not `active`/`ok` or that raises |
| ResetCluster.ChecksStop | admin/reset_cluster.py:127-129 | the first check that fails ends the round, and the checks after it are never sent |
| ResetCluster.ChecksPass | admin/reset_cluster.py:119-134 | when every check answers `active` or `ok`, all checks are sent and the round is healthy |
| ResetCluster.ChecksAllGood | admin/reset_cluster.py:131-134 | a healthy round sent every check, and each of them answered `active` or `ok` |
| ResetCluster.PollRound | admin/reset_cluster.py:111-138 | one round sends its checks, and adds two seconds only when a check raised |
| ResetCluster.PollChecks | admin/reset_cluster.py:110-138 | the poll loop matches the poll specification on every reply sequence |
| ResetCluster.PollHealthyStep | admin/reset_cluster.py:131-134 | a healthy round returns at once and no further round runs |
| ResetCluster.PollStep | admin/reset_cluster.py:110-138 | an unhealthy round is followed by the remaining rounds |
| ResetCluster.PollBound | admin/reset_cluster.py:110 | at most `rounds` rounds start; an unhealthy poll starts exactly `rounds` of them |
| ResetCluster.HealthPollBound | admin/reset_cluster.py:110-141 | at most 30 service checks and 90 events; a failed poll made all 30 attempts |
| ResetCluster.PollHealthyEnd | admin/reset_cluster.py:131-134 | a healthy poll ends with a full round of checks that all answered `active`/`ok` |
| ResetCluster.RoundOpens | admin/reset_cluster.py:119-123 | each round sends the service check exactly once and then at most the remaining checks and one pause |
| ResetCluster.ChecksRuns | admin/reset_cluster.py:119-129 | what a round sends is a prefix of the check list |
| ResetCluster.RunPaused | admin/reset_cluster.py:90-93 | each reinstall cleanup command is followed by one second's pause |
| ResetCluster.ReinstallSteps | admin/reset_cluster.py:79-141 | paused cleanup, install, then the poll only if the install succeeded |
| ResetCluster.ReinstallMaster | admin/reset_cluster.py:73-141 | the trace and the errors match the reinstall specification: cleanup, install, then the 30-round poll |
| ResetCluster.InstallFailureSkipsPoll | admin/reset_cluster.py:104-106 | a failed install returns exactly `["Failed to install k3s"]` and sends no health check |
| ResetCluster.ReinstallOutcomes | admin/reset_cluster.py:104-141 | a reinstall reports nothing, the install failure, or `"k3s failed to start properly"` |
| ResetCluster.TokenOf | admin/reset_cluster.py:144-157 | the token is the stripped output, and `""` when the command fails |
| ResetCluster.GetNodeToken | admin/reset_cluster.py:144-157 | one token read from the master, whose result is `TokenOf` of its reply |
| ResetCluster.JoinWorker | admin/reset_cluster.py:161-170 | one join to the worker against `https://{master}:6443` with the token; one error iff it fails |
| ResetCluster.CleanupAll | admin/reset_cluster.py:188-191 | every host is cleaned in `HOSTS` order, and the errors of all hosts are gathered |
| ResetCluster.JoinAll | admin/reset_cluster.py:207-210 | each worker joins once in order, and one failure never blocks the next worker |
| ResetCluster.TokenAndJoin | admin/reset_cluster.py:198-210 | the token read; an empty token adds its one error and skips every join, otherwise each worker joins with it |
| ResetCluster.Reset | admin/reset_cluster.py:173-210 | no confirmation means nothing is sent; otherwise cleanup, reinstall, token, then the joins, with an empty token adding its error and skipping every join |
| ResetCluster.CleanupErrorsCount | admin/reset_cluster.py:188-191 | the cleanup errors number the failed cleanup commands, at most 11 per host |
| ResetCluster.FleetCleanupOrder | admin/reset_cluster.py:9-14 | the fleet is cleaned master first, and only the master gets the server uninstall |
| PowerCycle.SshOutcome | admin-scripts/galactica_on_and_off.py:42-49 | non-quiet success iff exit 0; a quiet call succeeds whenever it exits; stdout is missing iff the call raised |
| PowerCycle.RunSsh | admin-scripts/galactica_on_and_off.py:20-49 | one command to the host, whose result follows the rule above |
| PowerCycle.SudoInjective | admin-scripts/galactica_on_and_off.py:59 | different commands wrapped in `sudo -S` stay different |
| PowerCycle.KubectlNodeDistinct | admin-scripts/galactica_on_and_off.py:73-106 | cordon/uncordon commands name different nodes differently and are never the shutdown command |
| PowerCycle.MasterIp | admin-scripts/galactica_on_and_off.py:55-58 | the master address is present iff a master exists and its address is not empty |
| PowerCycle.CordonNode | admin-scripts/galactica_on_and_off.py:73-88 | succeeds iff there is a master; the cordon goes to the master |
| PowerCycle.UncordonNode | admin-scripts/galactica_on_and_off.py:91-106 | succeeds iff there is a master; the uncordon goes to the master |
| PowerCycle.KubectlOnMaster | admin-scripts/galactica_on_and_off.py:73-106 | the shared cordon/uncordon step succeeds iff there is a master, and then sends one command to it |
| PowerCycle.CheckNodeStatus | admin-scripts/galactica_on_and_off.py:52-70 | the status listing is sent to the master, or nothing when there is none |
| PowerCycle.ShutdownMachine | admin-scripts/galactica_on_and_off.py:109-133 | one shutdown; it counts as done unless the call raised |
| PowerCycle.FailedProbesSpec | admin-scripts/galactica_on_and_off.py:140-147 | the failed-probe count is the length of the leading run of unanswered probes |
| PowerCycle.FailedProbesUnique | admin-scripts/galactica_on_and_off.py:140-147 | that count is the only one with this property |
| PowerCycle.WaitForNode | admin-scripts/galactica_on_and_off.py:136-150 | the retry loop matches its specification for any `max_attempts`, negative included |
| PowerCycle.WaitProbeCount | admin-scripts/galactica_on_and_off.py:140-150 | at most `max_attempts` probes; reached means the first answered probe ended the wait; not reached means all probes were unanswered; 3 s after each failure |
| PowerCycle.WaitEventsShape | admin-scripts/galactica_on_and_off.py:140-147 | waiting sends only probes and three-second pauses |
| PowerCycle.ProbesCount | admin-scripts/galactica_on_and_off.py:140-147 | n probes send the probe command exactly n times |
| PowerCycle.KubectlPhaseCount | admin-scripts/galactica_on_and_off.py:173-176 | each worker name is cordoned as many times as it appears among the workers |
| PowerCycle.ShutdownPhaseCount | admin-scripts/galactica_on_and_off.py:180-183 | each address is shut down as many times as it appears among the workers |
| PowerCycle.ShutdownResultsAt | admin-scripts/galactica_on_and_off.py:180-183 | the i-th result is the i-th worker's name with whether its shutdown went out |
| PowerCycle.KubectlEach | admin-scripts/galactica_on_and_off.py:173-176 | one command per worker, each followed by one second |
| PowerCycle.ShutdownWorkers | admin-scripts/galactica_on_and_off.py:180-183 | one shutdown per worker, each followed by two seconds, with the results collected in order |
| PowerCycle.PowerOff | admin-scripts/galactica_on_and_off.py:160-190 | the shutdown sequence matches the power-off specification |
| PowerCycle.ClusterOff | admin-scripts/galactica_on_and_off.py:153-190 | without `--force` or a "yes" nothing is sent; otherwise the power-off runs |
| PowerCycle.OffShutdowns | admin-scripts/galactica_on_and_off.py:165-190 | each address is shut down once per worker entry plus once if it is the master; the master goes last after `--wait` seconds; one result per node |
| PowerCycle.GalacticaOff | admin-scripts/galactica_on_and_off.py:12-17 | on the fleet every machine is shut down exactly once, and the results list boomer, apollo, starbuck, then adama |
| PowerCycle.CordonsNeverShutDown | admin-scripts/galactica_on_and_off.py:173-176 | the cordon phase shuts nothing down |
| PowerCycle.ClusterOn | admin-scripts/galactica_on_and_off.py:201-233 | the power-on sequence matches its specification |
| PowerCycle.UnreachableMasterStops | admin-scripts/galactica_on_and_off.py:212-215 | an unreachable master without `--force` ends the run with status 1, having sent only probes |
| PowerCycle.OnUncordons | admin-scripts/galactica_on_and_off.py:225-227 | each worker name is uncordoned as many times as it appears among the workers |
| PowerCycle.GalacticaOn | admin-scripts/galactica_on_and_off.py:12-17 | on the fleet each worker is uncordoned exactly once and the master never is |
| PowerCycle.ProbesNeverUncordon | admin-scripts/galactica_on_and_off.py:140-147 | waiting uncordons nothing |
| PowerCycle.Dispatch | admin-scripts/galactica_on_and_off.py:241-287 | `on`, `off` (with its gate), `status` and no command each do what their function does |
| ShutdownCluster.DrainFlagIffControlPlane | admin/shutdown_cluster.py:32-35 | the drain ends in `--disable-eviction` iff the node is `adama` |
| ShutdownCluster.DrainCommandInjective | admin/shutdown_cluster.py:29-35 | different nodes get different drains |
| ShutdownCluster.DrainNode | admin/shutdown_cluster.py:29-42 | one drain whatever it answers, then five seconds |
| ShutdownCluster.ShutdownHost | admin/shutdown_cluster.py:44-52 | one halt sent to the machine, whatever it answers |
| ShutdownCluster.ShutdownAll | admin/shutdown_cluster.py:54-80 | without "yes" nothing is sent and the status is 0; otherwise the drains, ten seconds, then the halts; an empty host list fails at `HOSTS[-1]` |
| ShutdownCluster.ShutdownAt | admin/shutdown_cluster.py:66-80 | the position of each drain, halt and pause in the run |
| ShutdownCluster.DrainsBeforeHalts | admin/shutdown_cluster.py:63-80 | every drain precedes every halt; drains and halts follow `HOSTS` order, and the last host is halted last |
| ShutdownCluster.LocalsFirst | admin/shutdown_cluster.py:66-70 | the only commands run on the admin machine are the drains, all issued before the ten-second pause |
| ShutdownCluster.HaltsLast | admin/shutdown_cluster.py:72-80 | no drain is a halt, so every halt comes after the pause that follows the drains |
| ShutdownCluster.EachHostOnce | admin/shutdown_cluster.py:66-80 | with distinct names and addresses, each host is drained exactly once and halted exactly once |
| ShutdownCluster.ControlPlaneLast | admin/shutdown_cluster.py:12-17 | on the script's list only `adama` is drained without eviction; its drain is the last drain and its halt the last halt |
| LonghornCleanup.ServiceName | admin/cleanup_longhorn.py:46-49 | the service is `k3s` iff the node is the master, and `k3s-agent` iff it is a worker |
| LonghornCleanup.CleanupNode | admin/cleanup_longhorn.py:29-59 | unmount, two seconds, restart, five seconds, whatever either command answers |
| LonghornCleanup.CleanupCluster | admin/cleanup_longhorn.py:61-89 | without "yes" nothing is sent; otherwise every node's cleanup, thirty seconds, then the pod deletion; status 0 |
| LonghornCleanup.NodeCleanupsAt | admin/cleanup_longhorn.py:75-76 | the k-th host's four events sit at positions 4k to 4k+3 |
| LonghornCleanup.UnmountBeforeRestart | admin/cleanup_longhorn.py:34-59 | each node is unmounted, then after two seconds its own service is restarted |
| LonghornCleanup.DeleteComesLast | admin/cleanup_longhorn.py:78-87 | the pod deletion is the last event, after the thirty-second pause, and the only local command |
| LonghornCleanup.CleanupsRemote | admin/cleanup_longhorn.py:29-59 | every command of the per-node cleanups goes to a node over SSH, never to the admin machine |
| LonghornCleanup.FleetServices | admin/cleanup_longhorn.py:12-17 | on the fleet only `adama` restarts `k3s` and the three workers restart `k3s-agent` |
| LonghornCleanup.ShapeServices | admin/cleanup_longhorn.py:45-51 | on a fleet with the master first and three workers after it, the master restarts `k3s` and each worker restarts `k3s-agent` |
| AppManager.ScaleCommandInjective | admin/cluster_manager.py:39 | two apps scaled to the same count get different commands |
| AppManager.ScaleEach | admin/cluster_manager.py:37-39 | one scale per app in order, whatever each answers |
| AppManager.StopAllApps | admin/cluster_manager.py:31-41 | the stop list is scaled to zero |
| AppManager.ScaledOnceEach | admin/cluster_manager.py:37-39 | with distinct apps, each app's scale is sent exactly once, at its own position |
| AppManager.StopSequence | admin/cluster_manager.py:35-39 | postgres, minio, fastapi and n8n are each scaled to 0 exactly once, in that order |
| AppManager.StartTraceAt | admin/cluster_manager.py:51-62 | the k-th app's scale and its pause sit at positions 2k and 2k+1 |
| AppManager.StartEach | admin/cluster_manager.py:51-62 | each scale is followed by its pause |
| AppManager.StartAllApps | admin/cluster_manager.py:44-64 | the start list is scaled as specified |
| AppManager.StartSequence | admin/cluster_manager.py:49-62 | the same four apps in the same order are scaled to 1, with 10 s after postgres and 3 s after each other app |
| AppManager.RestartApp | admin/cluster_manager.py:67-74 | one pod deletion by the `app=` label |
| AppManager.RestartEach | admin/cluster_manager.py:84-86 | one restart per app, each followed by five seconds |
| AppManager.RestartAll | admin/cluster_manager.py:77-88 | the restart list is restarted as specified |
| AppManager.RestartSequence | admin/cluster_manager.py:82-86 | n8n, fastapi, minio and postgres (the stop order reversed) are restarted in that order, five seconds apart |
| AppManager.PatchEach | admin/cluster_manager.py:102-108 | one patch per non-blank line, in order |
| AppManager.ForceSyncArgocd | admin/cluster_manager.py:91-110 | the listing, then patches only when it exits 0; if the listing raises, the unpacking fails and the status is 1 |
| AppManager.AppNameOfLine | admin/cluster_manager.py:104 | a prefixed line names the application after the prefix |
| AppManager.NamesEmptyIffBlank | admin/cluster_manager.py:102-103 | nothing is patched iff every line is blank |
| AppManager.NamesOfPrefixed | admin/cluster_manager.py:101-108 | prefixed lines give back exactly their names, in order |
| AppManager.SyncPatchesListing | admin/cluster_manager.py:101-108 | any newline-joined listing of prefixed names, the empty one included, is patched once per name, in listing order |
| AppManager.ResetNamespace | admin/cluster_manager.py:113-130 | the reset follows its specification: delete, ten seconds, then sync, or nothing |
| AppManager.ResetGate | admin/cluster_manager.py:116-130 | the namespace is deleted iff the answer is exactly `RESET` (case-sensitive); anything else sends nothing |
| AppManager.UncordonNamesNodes | admin/cluster_manager.py:136-138 | the single uncordon command names exactly the listed nodes, in order |
| AppManager.UncordonAllNodes | admin/cluster_manager.py:133-139 | exactly one command is sent |
| AppManager.ShowStatus | admin/cluster_manager.py:142-160 | the five listings are sent in order |
| AppManager.Manage | admin/cluster_manager.py:163-195 | each action does what its function does; `restart-app` without a non-empty `--app` exits 1 having sent nothing |
| HealthCheck.Output | admin/quick_check.py:11-17 | there is output iff the command exits 0, and it is the stripped stdout |
| HealthCheck.Rows | admin/quick_check.py:39 | there is one row per line break, so the header is dropped |
| HealthCheck.RowsDropHeader | admin/quick_check.py:39 | the rows are exactly the lines after the first |
| HealthCheck.Records | admin/quick_check.py:40-43 | one field list per filled row, each with a first field |
| HealthCheck.ReadyCount | admin/quick_check.py:27 | the count uses at least five characters per node counted |
| HealthCheck.NotReadyCounted | admin/quick_check.py:27 | wherever it stands in any listing, a `NotReady` status adds exactly one to the ready count, just as `Ready` does |
| HealthCheck.ReadyCountJoin | admin/quick_check.py:27 | the ready count of two pieces of a listing is the sum of their counts when the second piece does not continue a `Ready` |
| HealthCheck.CheckNodes | admin/quick_check.py:19-31 | one node listing, whose reply yields the node report |
| HealthCheck.NodesReport | admin/quick_check.py:19-31 | a count exists iff the listing succeeded, and it is bounded by the output length |
| HealthCheck.AppRowOf | admin/quick_check.py:42-49 | the name is the first field; each icon is a check mark iff the value is `Synced` / `Healthy` |
| HealthCheck.AppRowDefaults | admin/quick_check.py:44-49 | a row with only a name reads `Unknown` twice and gets two warnings |
| HealthCheck.CheckApplications | admin/quick_check.py:33-54 | one application listing, whose reply yields the application rows |
| HealthCheck.AppsReport | admin/quick_check.py:33-54 | one row per filled line after the header, present iff the listing succeeded |
| HealthCheck.TallyRows | admin/quick_check.py:63-84 | the counting loop matches the tally specification, raising at the first short row |
| HealthCheck.TalliedCrashPersists | admin/quick_check.py:69-72 | once a row has raised, later rows change nothing |
| HealthCheck.TallyCounts | admin/quick_check.py:66-68 | the total counts exactly the filled rows, and the good count never exceeds it |
| HealthCheck.TallyCrashIff | admin/quick_check.py:69-72 | the count raises iff some filled row has too few fields |
| HealthCheck.PodRunningIff | admin/quick_check.py:74-77 | a pod with `READY` value `a/b` counts iff it is `Running` and `a == b` |
| HealthCheck.CountedOf | admin/quick_check.py:56-117 | a check is unavailable iff its listing failed, and a counted result never has more good rows than rows |
| HealthCheck.CheckPods | admin/quick_check.py:56-87 | one listing whose rows are tallied with width 3 and the running rule |
| HealthCheck.CheckStorage | admin/quick_check.py:89-117 | one listing whose rows are tallied with width 2, counting exactly `Bound` |
| HealthCheck.SecretCount | admin/quick_check.py:136 | the regular-secret count is the number of line breaks in the stripped listing |
| HealthCheck.SecretsOf | admin/quick_check.py:119-140 | there is a report iff the sealed listing succeeded, and a count iff the second listing did too |
| HealthCheck.CheckSecrets | admin/quick_check.py:119-140 | the regular secrets are listed only after a successful sealed listing |
| HealthCheck.CheckIngress | admin/quick_check.py:142-157 | one ingress listing, whose reply yields the ingress rows |
| HealthCheck.IngressOf | admin/quick_check.py:142-157 | one row per filled line, present iff the listing succeeded |
| HealthCheck.IngressHostDefault | admin/quick_check.py:152-153 | the host is the third field, or `No host` when the row has fewer than three fields |
| HealthCheck.RunChecks | admin/quick_check.py:173-178 | the six checks run in order, and a pod row that raises ends the run |
| HealthCheck.RunLaterChecks | admin/quick_check.py:176-178 | storage, secrets, then ingress, and a claim row that raises ends the run |
| HealthCheck.QuickCheckMain | admin/quick_check.py:159-180 | the run follows the health-check specification |
| HealthCheck.VersionGate | admin/quick_check.py:166-178 | a failed `kubectl version --client` is the only command sent and gives status 1; otherwise nodes, applications and pods come next, and the status is 0 iff no row raised, with the ingress listing then last |

## Left out

- Printing is not modelled: messages, emoji, summaries and the
  `datetime.now()` banner of `admin/quick_check.py` are output only. The
  parsed values that feed them are modelled.
- Real sleeping is recorded as `Delay(seconds)` events, not performed.
- Transport is abstracted. `subprocess`, `sshpass`, ssh options,
  timeouts and shell quoting become `Run(target, cmd)` events, and
  their results become the oracle's reply. An ssh-wrapped command is
  recorded as the inner command sent to `Remote(ip)`.
- Credentials are not modelled. `PASSWORD` and `USERNAME` live only in
  the transport. `SUDO_PASSWORD` is the opaque constant
  `PowerCycle.SudoPassword`.
- kubectl and k3s semantics are left out: what a command does to the
  cluster is never modelled, only what the scripts send and how they
  read the replies.
- `admin-scripts/quick_check.py` is not part of this model. It consists
  of ping/ssh probes, floating-point formatting of temperature, CPU and
  RAM, and an ANSI regex used for padding.
- The argparse machinery is left out. Parsed arguments are records
  (`OffArgs`, `OnArgs`, `Command`, `Action`) with the defaults of
  `admin-scripts/galactica_on_and_off.py:251,255,274`.
- ResetCluster.RunSsh: an exception other than `CalledProcessError`
  (`Raised`) is treated as a failed command. In the source such an
  exception would escape `run_ssh_command` and end the script.
- `lower()` is ASCII case folding. This is exact for the comparison
  with "yes", which is the only use in the scripts.
- Python `str` is `seq<char>`. Non-BMP characters and Unicode
  normalisation are not modelled.
- Standard input becomes the string parameter `answer`. The `--confirm`
  flag of `admin/reset_cluster.py` becomes the boolean `confirm`.

## Notes

- In `admin-scripts/galactica_on_and_off.py:42-45`, `wait_for_node`
  probes with `quiet=True`. A quiet call reports success whenever the
  command completes, whatever its exit status, so any reply other than
  an exception counts as reachable. The model keeps this behaviour.
- In `admin/cluster_manager.py:96-98`, `run_command` with
  `show_output=False` returns a bare `False` when it raises. The
  three-way unpacking then raises `TypeError`, so the run ends with
  status 1. The model keeps this.
- A filled row with too few fields makes `check_pods` or
  `check_storage` raise `IndexError` (`admin/quick_check.py:70-72`,
  `105-106`). That ends the run with status 1, and the model keeps it.
