/**
 * The reconcile handler as the program runs it: a step-by-step state machine
 * over a cluster whose replica counts, patch log and event log it updates in
 * place. Each method is proved to reach the state that module ClusterSpec
 * gives for it, so the properties proved there hold of the handler.
 */
module PvcScaler {
  import opened Wrappers
  import opened PvcNaming
  import opened ClusterSpec

  /**
   * The cluster as the handler sees it through the API client and the event
   * sink. The oracle fixes the API server's answers.
   */
  class Cluster {
    const oracle: Oracle
    var replicas: map<Key, nat>
    var readCount: nat
    var patches: seq<Patch>
    var events: seq<Event>

    function State(): World
      reads this
    {
      World(replicas, readCount, patches, events)
    }

    constructor (oracle: Oracle, replicas: map<Key, nat>)
      ensures this.oracle == oracle
      ensures State() == World(replicas, 0, [], [])
    {
      this.oracle := oracle;
      this.replicas := replicas;
      this.readCount := 0;
      this.patches := [];
      this.events := [];
    }

    /** `get_deployment`: read the deployment; on an API error log a warning and return nothing. */
    method GetDeployment(key: Key) returns (found: Option<nat>)
      modifies this
      ensures (found, State()) == Read(oracle, old(State()), key)
    {
      var readable := key in replicas && readCount !in oracle.failingReads;
      readCount := readCount + 1;
      if readable {
        found := Some(replicas[key]);
      } else {
        events := events + [Event(Warning, DeploymentReadError, ReadError)];
        found := None;
      }
    }

    /**
     * `scale_deployment`: one patch attempt, then its closing event; a failed
     * patch re-reads the deployment for the error event and is swallowed.
     */
    method ScaleDeployment(key: Key, count: nat, eventMessage: Option<Message>)
      modifies this
      ensures State() == Scale(oracle, old(State()), key, count, eventMessage)
    {
      var succeeded := key in replicas && |patches| !in oracle.failingPatches;
      patches := patches + [Patch(key, count)];
      if succeeded {
        replicas := replicas[key := count];
        events := events + [ScaleEvent(true, key.name, count, eventMessage)];
      } else {
        // The snapshot stands for the object attached to the error event; the
        // re-read matters only for its effects: one more read is counted and
        // it may log a DeploymentReadError.
        var snapshot := GetDeployment(key);
        events := events + [ScaleEvent(false, key.name, count, eventMessage)];
      }
    }

    /**
     * `pvc_monitoring` for the claim `pvcName` in `namespace`, first seen in
     * `phase`. The claim reads of the recovery loop return `polls` in order;
     * each loop iteration stands for one sleep of the check interval followed
     * by one read. When `polls` runs out while the claim is still degraded the
     * invocation is reported as still waiting.
     */
    method PvcMonitoring(pvcName: string, namespace: string, phase: Option<string>, polls: seq<Poll>)
      returns (outcome: Outcome)
      modifies this
      ensures (outcome, State()) == Monitor(oracle, old(State()), pvcName, namespace, phase, polls)
    {
      if !IsDegraded(phase) {
        return Healthy;
      }
      events := events + [Event(Warning, PVCReadOnly, ReadOnlyAlert(pvcName, phase.value))];
      var deploymentName := DeploymentName(pvcName);
      var key := Key(namespace, deploymentName);
      var deployment := GetDeployment(key);
      if deployment.None? {
        return NoDeployment;
      }
      var originalReplicas := deployment.value;
      ScaleDeployment(key, 0, Some(ScalingDown(deploymentName)));

      ghost var down := State();
      var current := phase;
      var i := 0;
      while IsDegraded(current)
        invariant 0 <= i <= |polls|
        invariant State() == down
        invariant i == 0 ==> current == phase
        invariant i > 0 ==> polls[i - 1] == Observed(current)
        invariant forall j :: 0 <= j < i - 1 ==> KeepsWaiting(polls[j])
        decreases |polls| - i
      {
        if i == |polls| {
          FirstExitUnique(polls, i);
          return StillWaiting(i);
        }
        match polls[i] {
          case ReadFailed =>
            FirstExitUnique(polls, i);
            return PollAborted(i + 1);
          case Observed(p) =>
            current := p;
        }
        i := i + 1;
      }
      FirstExitUnique(polls, i - 1);

      events := events + [Event(Normal, PVCBackToNormal, BackToNormal(pvcName, deploymentName))];
      ScaleDeployment(key, originalReplicas, Some(ScalingBack(deploymentName, originalReplicas)));
      outcome := Recovered(i, originalReplicas);
    }
  }
}
