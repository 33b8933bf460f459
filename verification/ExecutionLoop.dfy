/** The executor's side: `poll_loop` and what it calls, proved against the executor steps of the protocol. */
module ExecutionLoop {
  import opened Plans
  import opened Scheduling
  import opened Protocol
  import opened OwnershipInvariant

  /** What a spawned task does: it is over, and later its status goes into the channel. */
  datatype Event = Over(id: PartitionId, error: Option<string>) | Told(id: PartitionId)

  /** In how many places an executor has the task, apart from its poll. */
  function Own(w: Worker, pid: PartitionId): nat {
    (if pid in w.inFlight then 1 else 0) + (if pid in w.finished then 1 else 0) + Occurs(w.channel, pid)
  }

  /** A slot is free or has a task in flight, and no task is in two places. */
  ghost predicate Sound(w: Worker, slots: nat) {
    w.free >= 0 && w.free + |w.inFlight| == slots && forall pid :: Own(w, pid) <= 1
  }

  lemma ReceiveIsSound(w: Worker, slots: nat, task: Task)
    requires Sound(w, slots) && w.free > 0 && Own(w, task.id) == 0
    ensures
      var w' := ReceiveTask(w.(rpc := Answered(Some(task))));
      Sound(w', slots) && forall pid :: Own(w', pid) == Own(w, pid) + IsTask(Some(task), pid)
  {
    var w' := ReceiveTask(w.(rpc := Answered(Some(task))));
    forall pid ensures Own(w', pid) == Own(w, pid) + IsTask(Some(task), pid) {
    }
  }

  lemma FinishIsSound(w: Worker, slots: nat, e: string, pid: PartitionId, error: Option<string>)
    requires Sound(w, slots) && pid in w.inFlight
    ensures
      var w' := FinishTask(w, e, pid, error);
      Sound(w', slots) && forall q :: Own(w', q) == Own(w, q)
  {
    hide OutcomeOf;
    var w' := FinishTask(w, e, pid, error);
    assert Own(w, pid) == 1;
    assert w'.inFlight.Keys == w.inFlight.Keys - {pid};
    forall q ensures Own(w', q) == Own(w, q) {
    }
  }

  lemma AnnounceIsSound(w: Worker, slots: nat, pid: PartitionId)
    requires Sound(w, slots) && pid in w.finished
    ensures
      var w' := AnnounceTask(w, pid);
      Sound(w', slots) && forall q :: Own(w', q) == Own(w, q)
  {
    var w' := AnnounceTask(w, pid);
    forall q ensures Own(w', q) == Own(w, q) {
      assert w'.channel[..|w.channel|] == w.channel;
      assert Occurs(w'.channel, q) == Occurs(w.channel, q) + if q == pid then 1 else 0;
    }
  }

  // ---- While the call is out ----

  predicate CanHappen(w: Worker, event: Event) {
    match event
    case Over(pid, _) => pid in w.inFlight
    case Told(pid) => pid in w.finished
  }

  function Happen(w: Worker, e: string, event: Event): Worker
    requires CanHappen(w, event)
  {
    match event
    case Over(pid, error) => FinishTask(w, e, pid, error)
    case Told(pid) => AnnounceTask(w, pid)
  }

  /** The executor after the events, if they can happen in this order. */
  function After(w: Worker, e: string, events: seq<Event>): Option<Worker> {
    if events == [] then Some(w)
    else
      var w' :- After(w, e, events[..|events| - 1]);
      var last := events[|events| - 1];
      if CanHappen(w', last) then Some(Happen(w', e, last)) else None
  }

  /** An answer that brings a task; `None` is a call that failed. */
  predicate Brings(reply: Option<Option<Task>>) {
    reply.Some? && reply.value.Some?
  }

  lemma {:induction false} PrefixHappens(w: Worker, e: string, events: seq<Event>, i: nat)
    requires After(w, e, events).Some? && i <= |events|
    ensures After(w, e, events[..i]).Some?
  {
    if i < |events| {
      PrefixHappens(w, e, events[..|events| - 1], i);
      assert events[..|events| - 1][..i] == events[..i];
    } else {
      assert events[..i] == events;
    }
  }

  class Executor {
    const executorId: string
    const concurrentTasks: nat
    var availableTaskSlots: int
    var inFlight: map<PartitionId, Plan>
    var finished: map<PartitionId, Status>
    var channel: seq<Report>

    ghost predicate Valid()
      reads this
    {
      Sound(AsWorker(Idle), concurrentTasks)
    }

    /** The executor as the protocol sees it, in the given state of its poll. */
    function AsWorker(rpc: Rpc): Worker
      reads this
    {
      Worker(availableTaskSlots, inFlight, finished, channel, rpc)
    }

    constructor (executorId: string, concurrentTasks: nat)
      ensures Valid() && this.executorId == executorId && this.concurrentTasks == concurrentTasks
      ensures AsWorker(Idle) == Worker(concurrentTasks, map[], map[], [], Idle)
    {
      this.executorId := executorId;
      this.concurrentTasks := concurrentTasks;
      availableTaskSlots, inFlight, finished, channel := concurrentTasks, map[], map[], [];
    }

    /** Drains the channel, oldest status first. */
    method SampleTasksStatus() returns (taskStatus: seq<Report>)
      requires Valid()
      modifies this`channel
      ensures Valid() && taskStatus == old(channel)
      ensures AsWorker(Sampled(taskStatus)) == SampleStatuses(old(AsWorker(Idle)))
      ensures forall pid :: Own(AsWorker(Idle), pid) + Occurs(taskStatus, pid) == Own(old(AsWorker(Idle)), pid)
    {
      taskStatus := [];
      while channel != []
        invariant taskStatus + channel == old(channel)
        decreases |channel|
      {
        var status := channel[0];
        channel := channel[1..];
        taskStatus := taskStatus + [status];
      }
      assert forall pid :: Own(AsWorker(Idle), pid) <= Own(old(AsWorker(Idle)), pid);
    }

    /** A task is taken into a slot, which must be free. */
    method RunReceivedTask(task: Task)
      requires Valid() && availableTaskSlots > 0 && Own(AsWorker(Idle), task.id) == 0
      modifies this`availableTaskSlots, this`inFlight
      ensures Valid() && AsWorker(Idle) == ReceiveTask(old(AsWorker(Answered(Some(task)))))
      ensures forall pid :: Own(AsWorker(Idle), pid) == Own(old(AsWorker(Idle)), pid) + IsTask(Some(task), pid)
    {
      ReceiveIsSound(AsWorker(Idle), concurrentTasks, task);
      availableTaskSlots := availableTaskSlots - 1;
      inFlight := inFlight[task.id := task.plan];
    }

    /** A spawned task is over: its slot is free... */
    method TaskDone(pid: PartitionId, error: Option<string>)
      requires Valid() && pid in inFlight
      modifies this`availableTaskSlots, this`inFlight, this`finished
      ensures Valid() && AsWorker(Idle) == FinishTask(old(AsWorker(Idle)), executorId, pid, error)
      ensures forall q :: Own(AsWorker(Idle), q) == Own(old(AsWorker(Idle)), q)
    {
      FinishIsSound(AsWorker(Idle), concurrentTasks, executorId, pid, error);
      availableTaskSlots := availableTaskSlots + 1;
      inFlight := inFlight - {pid};
      finished := finished[pid := OutcomeOf(executorId, error)];
    }

    /** ... and then its status is in the channel. */
    method SendStatus(pid: PartitionId)
      requires Valid() && pid in finished
      modifies this`finished, this`channel
      ensures Valid() && AsWorker(Idle) == AnnounceTask(old(AsWorker(Idle)), pid)
      ensures forall q :: Own(AsWorker(Idle), q) == Own(old(AsWorker(Idle)), q)
    {
      AnnounceIsSound(AsWorker(Idle), concurrentTasks, pid);
      channel := channel + [Report(pid, finished[pid])];
      finished := finished - {pid};
    }

    /** What spawned tasks do while the executor waits for an answer. Slots only become free. */
    method RunSpawned(events: seq<Event>)
      requires Valid() && After(AsWorker(Idle), executorId, events).Some?
      modifies this
      ensures Valid() && Some(AsWorker(Idle)) == After(old(AsWorker(Idle)), executorId, events)
      ensures availableTaskSlots >= old(availableTaskSlots)
      ensures forall q :: Own(AsWorker(Idle), q) == Own(old(AsWorker(Idle)), q)
    {
      ghost var w := AsWorker(Idle);
      for i := 0 to |events|
        invariant Valid() && Some(AsWorker(Idle)) == After(w, executorId, events[..i])
        invariant availableTaskSlots >= w.free
        invariant forall q :: Own(AsWorker(Idle), q) == Own(w, q)
      {
        PrefixHappens(w, executorId, events, i + 1);
        assert events[..i + 1][..i] == events[..i];
        match events[i] {
          case Over(pid, error) => TaskDone(pid, error);
          case Told(pid) => SendStatus(pid);
        }
      }
      assert events[..|events|] == events;
    }

    /** One round of the loop: spawned tasks go on `before` the slots are looked at and `during` the call.
        The scheduler answers with a task only if it was told of a free slot, and never with one the executor has.
        Then there is a slot for the task, whatever happened in between, and every task stays in one place: the
        executor has those it had, less the ones it reported, and the one it was given. */
    method PollRound(reply: Option<Option<Task>>, before: seq<Event>, during: seq<Event>)
      returns (canAcceptTask: bool, taskStatus: seq<Report>)
      requires Valid() && After(AsWorker(Idle).(channel := []), executorId, before).Some?
      requires
        var asked := After(AsWorker(Idle).(channel := []), executorId, before).value;
        && After(asked, executorId, during).Some?
        && (Brings(reply) ==> asked.free > 0 && Own(AsWorker(Idle), reply.value.value.id) == 0)
      modifies this
      ensures Valid() && taskStatus == old(channel) && (Brings(reply) ==> canAcceptTask)
      ensures
        var asked := After(old(AsWorker(Idle)).(channel := []), executorId, before).value;
        var w := After(asked, executorId, during).value;
        && canAcceptTask == (asked.free > 0)
        && AsWorker(Idle) == if reply.Some? then ReceiveTask(w.(rpc := Answered(reply.value))) else w
      ensures forall pid :: Own(AsWorker(Idle), pid) + Occurs(taskStatus, pid)
                         == Own(old(AsWorker(Idle)), pid) + (if reply.Some? then IsTask(reply.value, pid) else 0)
    {
      hide After;
      taskStatus := SampleTasksStatus();
      RunSpawned(before);
      canAcceptTask := availableTaskSlots > 0;
      RunSpawned(during);
      if Brings(reply) {
        RunReceivedTask(reply.value.value);
      }
    }
  }
}
