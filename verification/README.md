# PVC watcher: a verified model of the degraded-claim reconcile handler

The PVC watcher is a Kubernetes operator. It runs on a 30-second timer for every
PersistentVolumeClaim (PVC). When a claim's phase is `Failed` or `ReadOnly`, the
handler does the following in order:

1. It logs a warning.
2. It finds the deployment that uses the claim. The name is the claim's name with
   `-pvc` removed.
3. It reads that deployment and remembers its replica count.
4. It scales the deployment to 0.
5. It blocks in a loop that re-reads the claim's phase until the phase is no longer
   degraded.
6. It logs that the claim is back to normal.
7. It scales the deployment back to the remembered count.

The model has four modules:

- `Wrappers` (`wrappers.dfy`): an `Option` type. It stands for Python's `None` and
  for an absent API result.
- `PvcNaming` (`naming.dfy`): the pure parts.
  - `IsDegraded` is the phase test.
  - `DeploymentName` is `name.replace("-pvc", "")`.
  - `NatToString` renders a replica count in decimal.
- `ClusterSpec` (`cluster_spec.dfy`): the handler stated on values.
  - A `World` holds the replica count of every deployment, the log of patches sent
    and the log of events emitted.
  - An `Oracle` decides in advance how the API server answers. The n-th deployment
    read fails when the deployment is absent or n is marked failing. The n-th patch
    fails when the deployment is absent or n is marked failing. So a deployment that
    becomes unreadable while the handler waits is covered: its later reads are
    marked failing.
  - `Read`, `Scale` and `Monitor` give the state after `get_deployment`,
    `scale_deployment` and `pvc_monitoring`.
  - The lemmas state what the handler guarantees.
- `PvcScaler` (`pvc_scaler.dfy`): the handler as it runs. Class `Cluster` holds the
  same state in fields, which its methods update in place.
  - `PvcMonitoring` runs the recovery loop as a `while` loop over a finite sequence
    of claim reads ("polls"). Each iteration stands for one sleep and one read.
  - Each method is proved to reach exactly the state that `ClusterSpec` gives. Every
    lemma about `ClusterSpec` therefore holds of the running handler.

The recovery loop in the source has no bound. In the model, the polls are a given
finite sequence, and `Monitor` has one outcome for each way an invocation can end:

- `Healthy`: the phase was not degraded.
- `NoDeployment`: the deployment could not be read.
- `StillWaiting`: every given poll was still degraded, so the invocation is still
  blocked.
- `PollAborted`: a claim read inside the loop raised. The source does not catch this,
  so the invocation ends with the deployment left as the scale-down attempt left it
  (at 0 when that patch succeeded).
- `Recovered`: a poll saw a healthy phase and the restore was attempted.

Some behaviour of the code is easy to misread from the naming convention and the
event names. The model follows the code:

- **Name mapping.** The convention is that claim `X-pvc` belongs to deployment `X`.
  The code does not just strip a trailing `-pvc`: it removes every non-overlapping
  `-pvc`, scanning left to right, in one pass.
  - `InnerTokenIsRemoved` shows that a `-pvc` in the middle of a name is removed too.
  - `RemovalIsSinglePass` shows that the mapping is not idempotent.
  - `StripsTrailingToken` shows that the convention holds for names that hold the
    token once, at the end.
- **Events from a failed patch.** A patch attempt does not always emit exactly one
  event. When a patch fails, the code reads the deployment again to attach it to
  the error event (src/pvc_watcher/pvc_scaler.py:58). If that read also fails,
  `get_deployment` logs its own `DeploymentReadError` first, so two events are
  emitted. `ScaleEffect` states both cases. This also happens inside
  `pvc_monitoring`. The re-read is a fresh API call, and the restore's re-read
  comes after a wait with no time limit. So a completed incident logs four, five or
  six events (`CompletedIncident`, `CompletedIncidentWithFailedReads`).
- **Errors inside the recovery loop.** A claim read that raises inside the waiting
  loop (lines 92-94) is not caught. The model ends such an invocation with
  `PollAborted`, with the deployment left as the scale-down attempt left it (at 0
  when that patch succeeded).

## Model

| member | source | states |
|---|---|---|
| `PvcNaming.IsDegraded` | src/pvc_watcher/pvc_scaler.py:68 | a degraded phase is present and non-empty, so a missing phase (`None`) is never degraded. The definition is the membership test in `Failed`/`ReadOnly`; `MonitorOutcome` and `HealthyPhaseIsIgnored` state what the handler does for a degraded and a non-degraded phase |
| `PvcNaming.DeploymentName` | src/pvc_watcher/pvc_scaler.py:77 | the deployment name is never longer than the claim name |
| `PvcNaming.NameUnchangedIffNoToken` | src/pvc_watcher/pvc_scaler.py:77 | the mapping leaves a name unchanged if and only if the name contains no `-pvc` |
| `PvcNaming.NoTokenMapsToItself` | src/pvc_watcher/pvc_scaler.py:77 | a name without `-pvc` maps to itself |
| `PvcNaming.TokenShortensName` | src/pvc_watcher/pvc_scaler.py:77 | a name holding `-pvc` maps to a strictly shorter name |
| `PvcNaming.StripsTrailingToken` | src/pvc_watcher/pvc_scaler.py:77 | for any name `b` without `-pvc`, `b + "-pvc"` maps back to `b` (the naming convention) |
| `PvcNaming.DataClaimMapsToData` | src/pvc_watcher/pvc_scaler.py:77 | claim `data-pvc` maps to deployment `data` |
| `PvcNaming.InnerTokenIsRemoved` | src/pvc_watcher/pvc_scaler.py:77 | every occurrence is removed, not only the trailing one: `my-pvc-data-pvc` maps to `my-data` |
| `PvcNaming.RemovalIsSinglePass` | src/pvc_watcher/pvc_scaler.py:77 | removal is one left-to-right pass: `--pvcpvc` maps to `-pvc`, which maps on to the empty name, so the mapping is not idempotent |
| `PvcNaming.NatToString` | src/pvc_watcher/pvc_scaler.py:53 | `str(n)`: a non-empty string of decimal digits whose decimal value (`DecimalValue`) is `n`, with no leading zero (so `0` renders as the single digit `0`) |
| `ClusterSpec.Render` | src/pvc_watcher/pvc_scaler.py:50-54 | every message the handler builds itself has non-empty text |
| `ClusterSpec.Read` | src/pvc_watcher/pvc_scaler.py:29-39 | the read returns the stored count if and only if the deployment exists and this read is not one that fails; otherwise it logs exactly one Warning/DeploymentReadError and returns nothing; every read is counted; replicas and patches never change |
| `ClusterSpec.Scale` | src/pvc_watcher/pvc_scaler.py:42-62 | a scale attempt sends exactly one patch, to the given count, and never adds or removes a deployment |
| `ClusterSpec.ScaledMessage` | src/pvc_watcher/pvc_scaler.py:50-54 | the message of a successful patch is either the caller's or the default "Scaled deployment … to … replicas."; which one is chosen is stated by `ScaledMessageChoice` |
| `ClusterSpec.ScaleEvent` | src/pvc_watcher/pvc_scaler.py:46-60 | the closing event is DeploymentScaled exactly when the patch succeeded, and Normal exactly when it is DeploymentScaled; see also `ScaleEventKind` |
| `ClusterSpec.ScaledMessageChoice` | src/pvc_watcher/pvc_scaler.py:50-54 | the event message is the caller's when its text is non-empty, otherwise "Scaled deployment {name} to {replicas} replicas." |
| `ClusterSpec.ScaleEffect` | src/pvc_watcher/pvc_scaler.py:42-62 | exactly one patch is sent; on success only the target's count is set, followed by one Normal/DeploymentScaled; on failure nothing changes, one more deployment read is made, and the attempt ends with one Warning/DeploymentScaleError (preceded by a DeploymentReadError only when that re-read fails); the failure does not escape |
| `ClusterSpec.ScaleEventKind` | src/pvc_watcher/pvc_scaler.py:46-62 | the closing event is Normal/DeploymentScaled if and only if the patch succeeded, and Warning/DeploymentScaleError if and only if it failed |
| `ClusterSpec.ScaleOnlyTouchesTarget` | src/pvc_watcher/pvc_scaler.py:43-45 | a scale adds or removes no deployment and leaves every other deployment's count unchanged |
| `ClusterSpec.Target` | src/pvc_watcher/pvc_scaler.py:76-78 | the deployment is looked up in the claim's own namespace, under a name no longer than the claim's |
| `ClusterSpec.Monitor` | src/pvc_watcher/pvc_scaler.py:65-109 | an invocation never adds or removes a deployment |
| `ClusterSpec.AwaitRecovery` | src/pvc_watcher/pvc_scaler.py:89-109 | the loop ends by running out of polls, by a raising claim read or by a recovery; only a recovery changes the state |
| `ClusterSpec.KeepsWaiting` | src/pvc_watcher/pvc_scaler.py:90 | the loop condition: a poll that keeps the loop going observed a present phase; `FirstExit` states where the loop stops |
| `ClusterSpec.Alerted` | src/pvc_watcher/pvc_scaler.py:69-74 | the PVCReadOnly warning adds exactly one event and changes no count, patch or read; its content is stated by `ScaleDownEffect` |
| `ClusterSpec.Noticed` | src/pvc_watcher/pvc_scaler.py:97-102 | the PVCBackToNormal event adds exactly one event and changes no count, patch or read; its content is stated by `RestoreEffect` |
| `ClusterSpec.FirstExit` | src/pvc_watcher/pvc_scaler.py:90-95 | the index of the first poll that ends the loop: every earlier poll saw Failed or ReadOnly, and the poll at that index did not |
| `ClusterSpec.FirstExitUnique` | src/pvc_watcher/pvc_scaler.py:90-95 | FirstExit is the only index with those two properties |
| `ClusterSpec.AwaitRecoveryUnfinished` | src/pvc_watcher/pvc_scaler.py:90-95 | unfolding step (states no guarantee beyond the definition; the promises are in `MonitorOutcome` and `CompletedIncident`): when no poll saw a healthy phase, the state is unchanged and the outcome is StillWaiting (polls ran out) or PollAborted at the first failed claim read |
| `ClusterSpec.AwaitRecoveryRecovered` | src/pvc_watcher/pvc_scaler.py:90-109 | unfolding step (states no guarantee beyond the definition; the promises are in `MonitorOutcome` and `CompletedIncident`): when a poll saw a healthy phase, the outcome is Recovered after FirstExit + 1 polls and the state is the restore patch applied after PVCBackToNormal |
| `ClusterSpec.AwaitRecoveryEffect` | src/pvc_watcher/pvc_scaler.py:90-109 | unfolding step (states no guarantee beyond the definition; the promises are in `MonitorOutcome` and `CompletedIncident`): all three ways the loop can end: running out of polls or a failed claim read changes nothing further; a healthy poll leads to PVCBackToNormal and one restore patch to the remembered count |
| `ClusterSpec.RestoreEffect` | src/pvc_watcher/pvc_scaler.py:97-109 | the restore logs PVCBackToNormal, sends one patch to the remembered count, sets it only when the patch succeeds, and on failure logs a DeploymentReadError only when the re-read fails too |
| `ClusterSpec.IncidentOpened` | src/pvc_watcher/pvc_scaler.py:69-89 | unfolding step (states no guarantee beyond the definition; the promises are in `MonitorOutcome` and `CompletedIncident`): after a successful read, the count read before any patch is handed to the recovery loop, starting from the scaled-down state |
| `ClusterSpec.ScaleDownEffect` | src/pvc_watcher/pvc_scaler.py:69-87 | the scaled-down state holds the PVCReadOnly warning, one patch to 0 and its closing event (after a DeploymentReadError when the patch and its re-read both fail); the count is set to 0 if the patch succeeded and is otherwise unchanged |
| `ClusterSpec.RecoveredState` | src/pvc_watcher/pvc_scaler.py:65-109 | unfolding step (states no guarantee beyond the definition; the promises are in `MonitorOutcome` and `CompletedIncident`): a completed incident ends in the state of the restore patch applied to the scaled-down state, with outcome Recovered and the count read before any patch |
| `ClusterSpec.IncidentLog` | src/pvc_watcher/pvc_scaler.py:69-109 | the scale-down and the restore together send the two patches and log, in order, PVCReadOnly, the scale-down's events, PVCBackToNormal and the restore's events, with a DeploymentReadError before a failed patch's error exactly when its re-read fails |
| `ClusterSpec.MonitorOutcome` | src/pvc_watcher/pvc_scaler.py:65-109 | how an invocation ends is decided, each case if and only if, by the phase, by whether the deployment is readable and by the first poll that is not degraded; a recovery took FirstExit + 1 polls and remembers the count read before any patch |
| `ClusterSpec.RecoveryPollCount` | src/pvc_watcher/pvc_scaler.py:90-95 | when the loop recovers, the last poll saw a healthy phase and every earlier poll saw Failed or ReadOnly |
| `ClusterSpec.HealthyPhaseIsIgnored` | src/pvc_watcher/pvc_scaler.py:67-68 | when the phase is anything but Failed or ReadOnly, nothing is read, patched or logged |
| `ClusterSpec.UnreadableDeploymentIsLeftAlone` | src/pvc_watcher/pvc_scaler.py:69-79 | when the deployment cannot be read, no patch is sent, replicas are unchanged, one read is counted, and exactly the PVCReadOnly and DeploymentReadError warnings are logged |
| `ClusterSpec.CompletedIncident` | src/pvc_watcher/pvc_scaler.py:80-109 | a completed incident sends exactly two patches to the resolved deployment, first to 0 and then to the count read before any patch, even when the first failed; it makes one deployment read plus one per failed patch; it logs PVCReadOnly, the scale-down's closing event, PVCBackToNormal and the restore's closing event in order, each failed patch whose re-read fails adding a DeploymentReadError before its error |
| `ClusterSpec.CompletedIncidentWithFailedReads` | src/pvc_watcher/pvc_scaler.py:56-62 | when both patches and both re-reads fail, a completed incident logs six events, two of them DeploymentReadError |
| `ClusterSpec.CompletedIncidentRestoresReplicas` | src/pvc_watcher/pvc_scaler.py:103-109 | after a completed incident the replica map equals its value before the incident, unless the scale-down succeeded and the restore failed, in which case the deployment is left at 0 |
| `ClusterSpec.UnfinishedIncidentStaysDown` | src/pvc_watcher/pvc_scaler.py:81-95 | an incident still waiting, or ended by a raising claim read, has sent exactly one patch, to 0, and the deployment stays at 0 if that patch succeeded |
| `ClusterSpec.OnlyTargetChanges` | src/pvc_watcher/pvc_scaler.py:76-109 | whatever the outcome, no deployment appears or disappears and only the resolved deployment's count can change |
| `PvcScaler.Cluster.GetDeployment` | src/pvc_watcher/pvc_scaler.py:29-39 | the method returns the result of `Read` and reaches its state |
| `PvcScaler.Cluster.ScaleDeployment` | src/pvc_watcher/pvc_scaler.py:42-62 | the method reaches the state of `Scale` |
| `PvcScaler.Cluster.PvcMonitoring` | src/pvc_watcher/pvc_scaler.py:65-109 | the step-by-step handler and its poll loop return the outcome of `Monitor` and reach its state |

## Left out

- Process bootstrap (src/pvc_watcher/pvc_scaler.py:10-26) is not modelled. This is
  the environment-variable check and the in-cluster configuration load, with their
  warnings. It is credential and environment I/O.
- The timer registration and the 30-second interval are not modelled, and nor is the
  real sleep. Each loop iteration stands for one sleep and one read.
- Overlapping invocations for the same claim are not modelled, because the model is
  sequential. So whether a repeated detection opens a second incident is not
  modelled either.
- Exception texts are not modelled. An error event's message is modelled as its fixed
  prefix.
- The object attached to each event is not modelled. This includes the claim body and
  the deployment snapshot in the scale-error event. The read that fetches that
  snapshot is modelled, together with its own warning.
- The API server's answers are fixed in advance by the oracle:
  - Whether a deployment read fails depends only on how many deployment reads came
    before it. Reads of the claim inside the loop are the given polls.
  - Whether a patch fails depends only on its position in the patch log.
  - No other party changes replica counts, or adds or deletes deployments, while an
    invocation runs.
- Exceptions other than the API error are not modelled. In the source they escape
  `get_deployment` and `scale_deployment` uncaught.
- A deployment whose spec has no replica count is not modelled. Replica counts are
  non-negative integers.
- The recovery loop is unbounded in the source. The model gives it a finite sequence
  of polls and reports `StillWaiting` when the sequence ends while the claim is still
  degraded. What the invocation does after those polls is not modelled.
- The task runner (`tasks.py`) is not modelled. It only shells out to docker and pdm.
