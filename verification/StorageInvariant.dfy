/** What is stored is exactly what the save loops have written so far. */
module StorageInvariant {
  import opened Plans
  import opened Scheduling
  import opened Protocol

  type Submissions = map<string, Submission>

  /** A save loop's stages are numbered from 1 and not empty, and its cursor is within bounds. */
  ghost predicate GoodCursor(sub: Submission) {
    sub.Saving? ==>
      && |sub.stages| == |sub.counts| && Small(sub.counts)
      && (forall i | 0 <= i < |sub.stages| :: sub.stages[i].stageId == i + 1)
      && (forall i | 0 <= i < |sub.counts| :: sub.counts[i] > 0)
      && sub.stage <= |sub.stages|
      && (if sub.stage == |sub.stages| then sub.next == 0 else sub.next <= sub.counts[sub.stage])
  }

  /** The save loop has written task `p` of stage `id`. */
  ghost predicate Written(sub: Submission, id: nat, p: nat) {
    && sub.Saving? && |sub.counts| == |sub.stages| && 1 <= id <= |sub.counts| && p < sub.counts[id - 1]
    && (id <= sub.stage || (id == sub.stage + 1 && p + 1 < sub.next))
  }

  ghost predicate PlanWritten(sub: Submission, id: nat) {
    && sub.Saving? && 1 <= id <= |sub.stages|
    && (id <= sub.stage || (id == sub.stage + 1 && sub.next > 0))
  }

  ghost predicate TaskWritten(subs: Submissions, pid: PartitionId) {
    pid.jobId in subs && Written(subs[pid.jobId], pid.stageId, pid.partitionId)
  }

  ghost predicate StageWritten(subs: Submissions, key: StageKey) {
    key.jobId in subs && PlanWritten(subs[key.jobId], key.stageId)
  }

  ghost predicate Storage(keys: set<PartitionId>, plans: StagePlans, subs: Submissions) {
    && (forall j | j in subs :: GoodCursor(subs[j]))
    && (forall pid :: pid in keys <==> TaskWritten(subs, pid))
    && (forall key :: key in plans <==> StageWritten(subs, key))
    && (forall key | key in plans :: plans[key] == subs[key.jobId].stages[key.stageId - 1].child)
  }

  lemma StoredTask(keys: set<PartitionId>, plans: StagePlans, subs: Submissions, pid: PartitionId)
    requires Storage(keys, plans, subs) && pid in keys
    ensures pid.jobId in subs && subs[pid.jobId].Saving?
    ensures
      var sub := subs[pid.jobId];
      && |sub.counts| == |sub.stages| && 1 <= pid.stageId <= |sub.stages|
      && pid.partitionId < sub.counts[pid.stageId - 1]
      && KeyOf(pid) in plans && plans[KeyOf(pid)] == sub.stages[pid.stageId - 1].child
  {
    assert TaskWritten(subs, pid);
    assert StageWritten(subs, KeyOf(pid));
  }

  // ---- Every step keeps it ----

  lemma {:induction false} SaveReportsKeys(tasks: Tasks, reports: seq<Report>)
    requires forall r <- reports :: r.partitionId in tasks
    ensures SaveReports(tasks, reports).Keys == tasks.Keys
  {
    if reports != [] {
      SaveReportsKeys(tasks, reports[..|reports| - 1]);
    }
  }

  /** A submission that has written nothing yet may change as it likes. */
  lemma StorageKeptByNewJob(keys: set<PartitionId>, plans: StagePlans, subs: Submissions, j: string, sub: Submission)
    requires Storage(keys, plans, subs)
    requires j in subs ==> !subs[j].Saving?
    requires GoodCursor(sub) && (sub.Saving? ==> sub.stage == 0 && sub.next == 0)
    ensures Storage(keys, plans, subs[j := sub])
  {
    var subs' := subs[j := sub];
    assert forall pid :: TaskWritten(subs, pid) <==> TaskWritten(subs', pid);
    assert forall key :: StageWritten(subs, key) <==> StageWritten(subs', key);
  }

  lemma CursorKept(sub: Submission)
    requires sub.Saving? && sub.stage < |sub.counts| && GoodCursor(sub)
    ensures GoodCursor(Advance(sub))
  {
  }

  lemma StorageKeptByPlanWrite(keys: set<PartitionId>, plans: StagePlans, subs: Submissions, j: string)
    requires Storage(keys, plans, subs) && j in subs && subs[j].Saving?
    requires subs[j].next == 0 && subs[j].stage < |subs[j].counts| == |subs[j].stages|
    ensures
      var sub := subs[j];
      Storage(keys, plans[StageKey(j, sub.stage + 1) := sub.stages[sub.stage].child], subs[j := Advance(sub)])
  {
    var sub := subs[j];
    var subs' := subs[j := Advance(sub)];
    assert GoodCursor(sub);
    CursorKept(sub);
    var added := StageKey(j, sub.stage + 1);
    forall pid ensures TaskWritten(subs', pid) <==> TaskWritten(subs, pid) {
    }
    forall key ensures StageWritten(subs', key) <==> StageWritten(subs, key) || key == added {
    }
  }

  lemma StorageKeptByTaskWrite(keys: set<PartitionId>, plans: StagePlans, subs: Submissions, j: string)
    requires Storage(keys, plans, subs) && j in subs && subs[j].Saving?
    requires subs[j].next > 0 && subs[j].stage < |subs[j].counts| == |subs[j].stages|
    ensures Storage(keys + {PartitionId(j, subs[j].stage + 1, subs[j].next - 1)}, plans, subs[j := Advance(subs[j])])
  {
    var sub := subs[j];
    var subs' := subs[j := Advance(sub)];
    assert GoodCursor(sub);
    CursorKept(sub);
    var added := PartitionId(j, sub.stage + 1, sub.next - 1);
    forall pid ensures TaskWritten(subs', pid) <==> TaskWritten(subs, pid) || pid == added {
    }
    forall key ensures StageWritten(subs', key) <==> StageWritten(subs, key) {
    }
  }

  /** What a save step writes. */
  lemma SaveParts(s: State, j: string)
    requires CanSave(s, j) && GoodCursor(s.submissions[j])
    ensures
      var sub := s.submissions[j];
      var s' := DoSave(s, j);
      && s'.submissions == s.submissions[j := Advance(sub)]
      && (sub.next == 0 ==>
          && s'.tasks == s.tasks
          && s'.plans == s.plans[StageKey(j, sub.stage + 1) := sub.stages[sub.stage].child])
      && (sub.next > 0 ==>
          && s'.plans == s.plans
          && s'.tasks == s.tasks[PartitionId(j, sub.stage + 1, sub.next - 1) := Pending])
  {
    var sub := s.submissions[j];
    assert sub.stages[sub.stage].stageId == sub.stage + 1;
    U32Small(sub.stage + 1);
    if sub.next > 0 {
      U32Small(sub.next - 1);
    }
  }

  lemma StorageKeptBySave(s: State, s': State, j: string)
    requires CanSave(s, j) && GoodCursor(s.submissions[j])
    requires Storage(s.tasks.Keys, s.plans, s.submissions)
    requires s' == DoSave(s, j)
    ensures Storage(s'.tasks.Keys, s'.plans, s'.submissions)
  {
    hide Storage, GoodCursor, DoSave, Advance;
    var sub := s.submissions[j];
    SaveParts(s, j);
    if sub.next == 0 {
      StorageKeptByPlanWrite(s.tasks.Keys, s.plans, s.submissions, j);
    } else {
      StorageKeptByTaskWrite(s.tasks.Keys, s.plans, s.submissions, j);
      assert s'.tasks.Keys == s.tasks.Keys + {PartitionId(j, sub.stage + 1, sub.next - 1)};
    }
  }

  lemma U32Small(n: nat)
    requires n < 0x1_0000_0000
    ensures U32(n) == n
  {
  }

  lemma NotYetWritten(keys: set<PartitionId>, plans: StagePlans, subs: Submissions, j: string)
    requires Storage(keys, plans, subs) && j in subs && subs[j].Saving?
    ensures
      var sub := subs[j];
      && (sub.next == 0 ==> StageKey(j, sub.stage + 1) !in plans)
      && (sub.next > 0 ==> PartitionId(j, sub.stage + 1, sub.next - 1) !in keys)
  {
    var sub := subs[j];
    if sub.next == 0 {
      assert !StageWritten(subs, StageKey(j, sub.stage + 1));
    } else {
      assert !TaskWritten(subs, PartitionId(j, sub.stage + 1, sub.next - 1));
    }
  }

  /** A save step adds; it never overwrites. */
  lemma SaveOnlyAdds(s: State, s': State, j: string)
    requires CanSave(s, j) && GoodCursor(s.submissions[j]) && Storage(s.tasks.Keys, s.plans, s.submissions)
    requires s' == DoSave(s, j)
    ensures forall pid | pid in s.tasks :: pid in s'.tasks && s'.tasks[pid] == s.tasks[pid]
    ensures forall pid | pid in s'.tasks && pid !in s.tasks :: s'.tasks[pid] == Pending
    ensures forall key | key in s.plans :: key in s'.plans && s'.plans[key] == s.plans[key]
  {
    hide Storage, GoodCursor, DoSave, Advance;
    SaveParts(s, j);
    NotYetWritten(s.tasks.Keys, s.plans, s.submissions, j);
  }
}
