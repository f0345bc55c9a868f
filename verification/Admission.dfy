/**
 When a job may run, said on the records of the ledger: the approval that covers it, the
 jobs before it, its machine, and the resources others hold (Engine#approved? and the
 first loop of #claim_ready in libexec/workspace-coordination.rb).
 */
module Admission {
  import opened Wrappers
  import opened MachinePolicy
  import opened Ledger

  /** An approval of the job's owner covers it: the branch it merges, or the machine and the action it deploys. */
  predicate Covered(s: State, job: Job) {
    && job.approval in s.approvals && s.approvals[job.approval].owner == job.owner
    && (job.kind == Merge ==>
          && !s.approvals[job.approval].deploy
          && (job.snapshot.repository, job.snapshot.target) in s.approvals[job.approval].merges)
    && (job.kind != Merge ==>
          && s.approvals[job.approval].deploy && job.reservation.Some? && job.reservation.value in s.reservations
          && exists m :: m in s.approvals[job.approval].machines &&
               m.machine == s.reservations[job.reservation.value].machine && !m.reboot && job.kind in m.actions)
    && Reviewed(s.approvals[job.approval], job.snapshot)
  }

  /** The approval reviewed this very snapshot, or names the change it belongs to. */
  predicate Reviewed(approval: Approval, snapshot: Snapshot) {
    || approval.reviewed == snapshot.id
    || (approval.iteration.Some? && |approval.iteration.value| > 0 && snapshot.changeScope == approval.iteration)
  }

  predicate Permitted(s: State, job: Job) {
    job.owner in s.owners && s.owners[job.owner].fence == None && Covered(s, job)
  }

  /** Everything the job depends on has succeeded. */
  predicate Behind(s: State, job: Job) {
    forall d :: d in job.dependsOn ==> d in s.jobs && s.jobs[d].state == Succeeded
  }

  predicate AwaitsTurn(state: JobState) {
    state in {WaitingApproval, WaitingDependency, WaitingResource, Ready}
  }

  /** A waiting job that could use its reservation now, unless its integration is paused. */
  predicate Contends(s: State, stopped: set<Id>, c: Id) {
    c in s.jobs && c !in stopped && AwaitsTurn(s.jobs[c].state) && Covered(s, s.jobs[c]) && Behind(s, s.jobs[c])
  }

  /** Two reservations are of one machine, whatever name each uses. */
  predicate OneMachine(norm: Norm, a: Reservation, b: Reservation) {
    norm(Machine(a.machine)) == norm(Machine(b.machine))
  }

  /** The reservation needs no recovery, no other one has its machine, and no earlier request of it has a contender. */
  ghost predicate MachineFree(norm: Norm, s: State, stopped: set<Id>, r: Id)
    requires r in s.reservations
  {
    && s.reservations[r].state != BlockedRecovery
    && forall q :: q in s.reservations && q != r && OneMachine(norm, s.reservations[q], s.reservations[r]) ==>
         && (s.reservations[q].state == Requested || s.reservations[q].state == Released)
         && (s.reservations[q].state == Requested && s.reservations[q].sequence < s.reservations[r].sequence ==>
               forall c :: c in s.jobs && s.jobs[c].reservation == Some(q) ==> !Contends(s, stopped, c))
  }

  ghost predicate MachineReady(norm: Norm, s: State, stopped: set<Id>, job: Job) {
    job.reservation.Some? && job.reservation.value in s.reservations ==>
      MachineFree(norm, s, stopped, job.reservation.value)
  }

  predicate Meet(norm: Norm, a: seq<Resource>, b: seq<Resource>) {
    exists x, y :: x in a && y in b && norm(x) == norm(y)
  }

  /** No held claim has one of the resources, under any name. */
  ghost predicate Unclaimed(norm: Norm, s: State, resources: seq<Resource>) {
    forall c :: c in s.claims && s.claims[c].state == Held ==> !Meet(norm, s.claims[c].resources, resources)
  }

  /** No job that owns resources has one of these, under any name. */
  ghost predicate Untaken(norm: Norm, s: State, resources: seq<Resource>) {
    forall j :: j in s.jobs && s.jobs[j].state in {Claimed, Running, Reconciling} ==>
      !Meet(norm, s.jobs[j].resources, resources)
  }

  /** The job takes its place in the ready order. */
  ghost predicate MayQueue(norm: Norm, s: State, stopped: set<Id>, j: Id)
    requires j in s.jobs
  {
    var job := s.jobs[j];
    && j !in stopped && Permitted(s, job) && Behind(s, job) && MachineReady(norm, s, stopped, job)
    && Unclaimed(norm, s, job.resources)
  }

  ghost predicate MayRun(norm: Norm, s: State, stopped: set<Id>, j: Id)
    requires j in s.jobs
  {
    MayQueue(norm, s, stopped, j) && Untaken(norm, s, s.jobs[j].resources)
  }

  /** Where a waiting job belongs, and the reason its owner is told. */
  ghost predicate Belongs(norm: Norm, s: State, stopped: set<Id>, j: Id, state: JobState, reason: Option<string>)
    requires j in s.jobs
  {
    var job := s.jobs[j];
    if j in stopped then state == WaitingDependency && reason == Some("integration_paused")
    else if !Permitted(s, job) then state == WaitingApproval && reason == Some("approval_required")
    else if !Behind(s, job) then state == WaitingDependency && reason == Some("dependency_pending")
    else if !MachineReady(norm, s, stopped, job) then state == WaitingResource && reason == Some("machine_owned")
    else if !Unclaimed(norm, s, job.resources) then state == WaitingResource && reason == Some("resource_claim_held")
    else if !Untaken(norm, s, job.resources) then state == WaitingResource && reason == Some("execution_busy")
    else state == Ready && reason == None
  }
}
