/**
 * The job queue's bookkeeping as a value, and what has to hold of it: who is queued where, who has been
 * allocated what, who has been told, and that nobody has been overtaken.
 */
module JobQueueModel {
  import opened Wrappers
  import opened CandidateFilter
  import opened AllocatorModel
  import opened AllocatorTheorems
  import opened Oracle
  import opened AllocatorClass

  /** Jobs are told apart by serial numbers, given out in the order of their creation. */
  type Serial = nat

  datatype Job = Job(
    id: int, pending: bool, machineName: Option<string>, tags: set<string>, demand: Demand,
    machine: Option<string>, allocationId: int)

  datatype MachineRec = MachineRec(name: string, tags: set<string>, allocator: Allocator, queue: seq<Serial>)

  /**
   * The calls made to the owner of the queue. With an allocation goes, for the history only, the machine that made it
   * and which jobs were stranded then.
   */
  datatype Callback =
    | OnAllocate(serial: Serial, host: Host, allocation: Allocation, stranded: set<Serial>)
    | OnFree(serial: Serial)
    | OnCancel(serial: Serial)
  {
    /** The callbacks that end a job's wait. */
    predicate Decides(s: Serial) {
      (OnAllocate? || OnCancel?) && serial == s
    }
  }

  /**
   * machines and jobs are ordered dictionaries; all holds every job object ever created; views are the states
   * of the machines' allocators; a positive postpone counter suspends all queue management. Stranded are the jobs
   * that the last rebuilding of the queues left out because it broke off; a record kept for the specification only.
   */
  datatype Q = Q(
    machines: seq<MachineRec>,
    views: seq<State>,
    all: map<Serial, Job>,
    jobs: seq<Serial>,
    nextSerial: Serial,
    postpone: nat,
    log: seq<Callback>,
    stranded: set<Serial>)

  /** A machine without its queue. */
  datatype Host = Host(name: string, tags: set<string>, allocator: Allocator)

  function Hosts(machines: seq<MachineRec>): seq<Host> {
    seq(|machines|, i requires 0 <= i < |machines| =>
      HostOf(machines[i]))
  }

  /** The job holds an allocation of this machine. */
  predicate RunsOn(j: Job, name: string) {
    !j.pending && j.machine == Some(name)
  }

  // ----- candidates

  predicate Matches(j: Job, rec: MachineRec) {
    if j.machineName.Some? then rec.name == j.machineName.value else j.tags <= rec.tags
  }

  /** The job asks for this machine, and the machine could ever serve it. */
  ghost predicate Candidate(j: Job, rec: MachineRec) {
    Matches(j, rec) && !Rejected(j.demand) && Possible(rec.allocator.machine, j.demand)
  }

  ghost predicate HasCandidate(machines: seq<MachineRec>, j: Job, n: nat)
    requires n <= |machines|
  {
    exists i :: 0 <= i < n && Candidate(j, machines[i])
  }

  /** Asking the first n machines whether they could ever serve the job raises an error. */
  predicate Balks(machines: seq<MachineRec>, j: Job, n: nat)
    requires n <= |machines|
  {
    exists i :: 0 <= i < n && Matches(j, machines[i]) && Raises(machines[i].allocator.machine, j.demand)
  }

  /** A job about which some machine raises an error is a candidate nowhere. */
  lemma BalksNowhere(machines: seq<MachineRec>, j: Job, n: nat)
    requires n <= |machines| && Balks(machines, j, n)
    ensures !HasCandidate(machines, j, |machines|)
  {
  }

  /** The same machines have the same candidates and raise the same errors, whatever is in their queues. */
  lemma CandidatesByHost(machines: seq<MachineRec>, machines': seq<MachineRec>, j: Job)
    requires Hosts(machines) == Hosts(machines')
    ensures |machines| == |machines'|
    ensures HasCandidate(machines, j, |machines|) <==> HasCandidate(machines', j, |machines'|)
    ensures Balks(machines, j, |machines|) <==> Balks(machines', j, |machines'|)
  {
    assert |machines| == |Hosts(machines)| == |machines'|;
    forall i | 0 <= i < |machines|
      ensures Candidate(j, machines[i]) <==> Candidate(j, machines'[i])
      ensures Matches(j, machines[i]) <==> Matches(j, machines'[i])
      ensures machines[i].allocator == machines'[i].allocator
    {
      assert Hosts(machines)[i] == Hosts(machines')[i];
    }
  }

  function HostOf(rec: MachineRec): Host {
    Host(rec.name, rec.tags, rec.allocator)
  }

  function RecOf(host: Host): MachineRec {
    MachineRec(host.name, host.tags, host.allocator, [])
  }

  predicate SameNeeds(j: Job, k: Job) {
    j.machineName == k.machineName && j.tags == k.tags && j.demand == k.demand
  }

  // ----- the invariant

  predicate Increasing(s: seq<Serial>) {
    forall i, j :: 0 <= i < j < |s| ==> s[i] < s[j]
  }

  ghost predicate NamesOk(hosts: seq<Host>) {
    forall i, j :: 0 <= i < j < |hosts| ==> hosts[i].name != hosts[j].name
  }

  ghost predicate AllocatorsOk(hosts: seq<Host>, views: seq<State>) {
    |views| == |hosts| && forall i {:trigger Sane(hosts[i], views[i])} :: 0 <= i < |views| ==> Sane(hosts[i], views[i])
  }

  ghost predicate Sane(h: Host, v: State) {
    Inv(h.allocator.machine, v)
  }

  ghost predicate JobsOk(all: map<Serial, Job>, jobs: seq<Serial>, nextSerial: Serial) {
    && Increasing(jobs)
    && (forall s :: s in jobs ==> s in all)
    && (forall s :: s in all ==> s < nextSerial)
    && (forall s :: s in all && all[s].pending ==> s in jobs)
    && (forall s :: s in all && all[s].pending ==> all[s].machine.None?)
    && (forall s, t {:trigger all[s].id, all[t].id} :: s in jobs && t in jobs && s != t ==> all[s].id != all[t].id)
  }

  /** The live allocations of every machine belong, one to one, to the jobs that run on it. */
  ghost predicate Bijection(hosts: seq<Host>, views: seq<State>, all: map<Serial, Job>, jobs: seq<Serial>)
    requires |views| == |hosts|
  {
    && (forall s {:trigger Placed(hosts, all[s])} :: s in jobs && s in all && !all[s].pending ==> Placed(hosts, all[s]))
    && (forall i {:trigger Owners(hosts[i].name, views[i].live, all, jobs)} ::
          0 <= i < |hosts| ==> Owners(hosts[i].name, views[i].live, all, jobs))
  }

  ghost predicate Placed(hosts: seq<Host>, j: Job) {
    exists i :: 0 <= i < |hosts| && RunsOn(j, hosts[i].name)
  }

  ghost predicate Owners(name: string, live: map<int, Holding>, all: map<Serial, Job>, jobs: seq<Serial>) {
    && (forall s :: s in jobs && s in all && RunsOn(all[s], name) ==> all[s].allocationId in live)
    && (forall s, t {:trigger all[s].allocationId, all[t].allocationId} ::
          s in jobs && t in jobs && s in all && t in all && s != t ==>
          RunsOn(all[s], name) && RunsOn(all[t], name) ==> all[s].allocationId != all[t].allocationId)
    && (forall id {:trigger Owned(name, id, all, jobs)} :: id in live ==> Owned(name, id, all, jobs))
  }

  ghost predicate Owned(name: string, id: int, all: map<Serial, Job>, jobs: seq<Serial>) {
    exists s :: s in jobs && s in all && RunsOn(all[s], name) && all[s].allocationId == id
  }

  /** A job has been told of its allocation or cancellation exactly once if it no longer waits, and never before. */
  ghost predicate LogOk(all: map<Serial, Job>, log: seq<Callback>) {
    && (forall s {:trigger Decided(log, s)} :: s in all ==> (all[s].pending <==> !Decided(log, s)))
    && (forall k :: 0 <= k < |log| ==> log[k].serial in all)
    && (forall k, l, s :: 0 <= k < l < |log| && log[k].Decides(s) ==> !log[l].Decides(s))
  }

  ghost predicate Decided(log: seq<Callback>, s: Serial) {
    exists k :: 0 <= k < |log| && log[k].Decides(s)
  }

  /**
   * If the k-th call announces an allocation, the job is on that machine and a candidate there, and every earlier job
   * that is a candidate there had been decided by then or was stranded.
   */
  ghost predicate Fair(all: map<Serial, Job>, log: seq<Callback>, k: nat)
    requires k < |log| && log[k].serial in all
  {
    log[k].OnAllocate? ==>
      && Candidate(all[log[k].serial], RecOf(log[k].host)) && all[log[k].serial].machine == Some(log[k].host.name)
      && forall s :: s in all && s < log[k].serial && Candidate(all[s], RecOf(log[k].host)) ==>
           Decided(log[..k], s) || s in log[k].stranded
  }

  /** In all that has happened, every machine has served the jobs it could serve in the order of their creation. */
  ghost predicate ServedInOrder(all: map<Serial, Job>, log: seq<Callback>) {
    forall k {:trigger Fair(all, log, k)} :: 0 <= k < |log| && log[k].serial in all ==> Fair(all, log, k)
  }

  /**
   * A queue holds candidates created before the bound, in order of creation; of the jobs that wait it misses those that
   * are stranded, and no other.
   */
  ghost predicate QueueOk(rec: MachineRec, all: map<Serial, Job>, jobs: seq<Serial>, bound: nat, stranded: set<Serial>) {
    && Increasing(rec.queue)
    && (forall s :: s in rec.queue ==> s in all && s < bound && s !in stranded && (all[s].pending ==> Candidate(all[s], rec)))
    && (forall s :: s in jobs && s in all && s < bound && s !in stranded && all[s].pending && Candidate(all[s], rec) ==>
          s in rec.queue)
  }

  ghost predicate QueuesOk(q: Q, bound: nat) {
    && (forall s :: s in q.stranded ==> s < bound)
    && forall i {:trigger QueueOk(q.machines[i], q.all, q.jobs, bound, q.stranded)} ::
         0 <= i < |q.machines| ==> QueueOk(q.machines[i], q.all, q.jobs, bound, q.stranded)
  }

  /** Unless queue management is postponed, the queues are in order. */
  ghost predicate Tidy(q: Q, bound: nat) {
    q.postpone == 0 ==> QueuesOk(q, bound)
  }

  /** The aspects of the bookkeeping that are always in order. */
  datatype Aspect = Names | Allocators | Ownership | Jobs | Callbacks

  ghost predicate Holds(q: Q, aspect: Aspect) {
    match aspect
    case Names => NamesOk(Hosts(q.machines))
    case Allocators => AllocatorsOk(Hosts(q.machines), q.views)
    case Ownership => |q.views| == |q.machines| && Bijection(Hosts(q.machines), q.views, q.all, q.jobs)
    case Jobs => JobsOk(q.all, q.jobs, q.nextSerial)
    case Callbacks => LogOk(q.all, q.log)
  }

  /** All the bookkeeping is in order; this does not depend on the order in which jobs are served. */
  ghost predicate Base(q: Q) {
    |q.views| == |q.machines| && forall aspect {:trigger Holds(q, aspect)} :: Holds(q, aspect)
  }

  /** Moreover, jobs have been served in order. */
  ghost predicate Orderly(q: Q) {
    Base(q) && ServedInOrder(q.all, q.log)
  }

  function NewQueue(): Q {
    Q([], [], map[], [], 0, 0, [], {})
  }

  /** The same as Base, spelled out. */
  ghost predicate Consistent(q: Q) {
    var hosts := Hosts(q.machines);
    && NamesOk(hosts) && AllocatorsOk(hosts, q.views) && Bijection(hosts, q.views, q.all, q.jobs)
    && JobsOk(q.all, q.jobs, q.nextSerial) && LogOk(q.all, q.log)
  }

  lemma Open(q: Q)
    requires Base(q)
    ensures Consistent(q)
  {
    assert Holds(q, Names) && Holds(q, Allocators) && Holds(q, Ownership);
    assert Holds(q, Jobs) && Holds(q, Callbacks);
  }

  lemma Close(q: Q)
    requires Consistent(q)
    ensures Base(q)
  {
    forall aspect
      ensures Holds(q, aspect)
    {
      match aspect
      case Names =>
      case Allocators =>
      case Ownership =>
      case Jobs =>
      case Callbacks =>
    }
  }

  lemma NewQueueHolds()
    ensures Orderly(NewQueue()) && QueuesOk(NewQueue(), 0)
  {
    Close(NewQueue());
  }

  /**
   * The job at the head of a queue, if it waits, was created before every other job that waits for the machine and is
   * not stranded.
   */
  lemma HeadIsFirst(rec: MachineRec, all: map<Serial, Job>, jobs: seq<Serial>, bound: nat, stranded: set<Serial>, t: Serial)
    requires QueueOk(rec, all, jobs, bound, stranded) && rec.queue != []
    requires t in jobs && t in all && t !in stranded && all[t].pending && Candidate(all[t], rec)
    ensures rec.queue[0] <= t
  {
    assert rec.queue[0] in rec.queue;
    if t < bound {
      var k :| 0 <= k < |rec.queue| && rec.queue[k] == t;
    }
  }

  // ----- steps that change an allocator

  /** The allocator of machine i has changed without any allocation being made or given up. */
  lemma QuietKeepsBase(q: Q, i: nat, v: State)
    requires Base(q) && i < |q.machines| && v.live == q.views[i].live && Inv(q.machines[i].allocator.machine, v)
    ensures Base(q.(views := q.views[i := v]))
  {
    Open(q);
    var hosts, views := Hosts(q.machines), q.views[i := v];
    forall k | 0 <= k < |hosts|
      ensures Owners(hosts[k].name, views[k].live, q.all, q.jobs)
    {
      assert Owners(hosts[k].name, q.views[k].live, q.all, q.jobs);
    }
    Close(q.(views := views));
  }

  /** A job has been allocated by machine i, whose allocator is now in state v. */
  function Started(j: Job, name: string, a: Allocation): Job {
    j.(pending := false, machine := Some(name), allocationId := a.id)
  }

  function Start(q: Q, i: nat, s: Serial, v: State, a: Allocation): Q
    requires i < |q.machines| && i < |q.views| && s in q.all
  {
    q.(views := q.views[i := v], all := q.all[s := Started(q.all[s], q.machines[i].name, a)],
       log := q.log + [OnAllocate(s, HostOf(q.machines[i]), a, q.stranded)])
  }

  /** One more callback decides the job it decides. */
  lemma DecidedExtends(log: seq<Callback>, c: Callback, t: Serial)
    ensures Decided(log + [c], t) <==> Decided(log, t) || c.Decides(t)
  {
    var log' := log + [c];
    if Decided(log', t) {
      var k :| 0 <= k < |log'| && log'[k].Decides(t);
      if k < |log| {
        assert log[k].Decides(t);
      }
    }
    if Decided(log, t) {
      var k :| 0 <= k < |log| && log[k].Decides(t);
      assert log'[k].Decides(t);
    }
    assert log'[|log|] == c;
  }

  /** Deciding a waiting job keeps the log in order. */
  lemma LogExtends(all: map<Serial, Job>, log: seq<Callback>, s: Serial, j: Job, c: Callback)
    requires LogOk(all, log) && s in all && all[s].pending && c.Decides(s) && !j.pending
    ensures LogOk(all[s := j], log + [c])
  {
    var all', log' := all[s := j], log + [c];
    forall t | t in all'
      ensures all'[t].pending <==> !Decided(log', t)
    {
      DecidedExtends(log, c, t);
    }
    assert !Decided(log, s);
    assert forall k :: 0 <= k < |log| ==> !log[k].Decides(s);
    forall k, l, t | 0 <= k < l < |log'| && log'[k].Decides(t)
      ensures !log'[l].Decides(t)
    {
      assert log[k].Decides(t);
    }
  }

  lemma OwnersGain(name: string, live: map<int, Holding>, all: map<Serial, Job>, jobs: seq<Serial>,
      s: Serial, j: Job, h: Holding)
    requires Owners(name, live, all, jobs) && s in jobs && s in all && all[s].pending
    requires RunsOn(j, name) && j.allocationId !in live
    ensures Owners(name, live[j.allocationId := h], all[s := j], jobs)
  {
    var all', live' := all[s := j], live[j.allocationId := h];
    forall id | id in live'
      ensures Owned(name, id, all', jobs)
    {
      if id != j.allocationId {
        assert Owned(name, id, all, jobs);
        var t :| t in jobs && t in all && RunsOn(all[t], name) && all[t].allocationId == id;
        assert t != s && all'[t] == all[t];
      } else {
        assert s in jobs && RunsOn(all'[s], name);
      }
    }
  }

  /** A job that starts on one machine changes nothing for the others. */
  lemma OwnersElsewhere(name: string, live: map<int, Holding>, all: map<Serial, Job>, jobs: seq<Serial>, s: Serial, j: Job)
    requires Owners(name, live, all, jobs) && s in all && all[s].pending && !RunsOn(j, name)
    ensures Owners(name, live, all[s := j], jobs)
  {
    var all' := all[s := j];
    forall id | id in live
      ensures Owned(name, id, all', jobs)
    {
      assert Owned(name, id, all, jobs);
      var t :| t in jobs && t in all && RunsOn(all[t], name) && all[t].allocationId == id;
      assert t != s && all'[t] == all[t];
    }
  }

  lemma StartBijection(hosts: seq<Host>, views: seq<State>, all: map<Serial, Job>, jobs: seq<Serial>,
      i: nat, s: Serial, j: Job, v: State, h: Holding)
    requires |views| == |hosts| && NamesOk(hosts) && Bijection(hosts, views, all, jobs)
    requires i < |hosts| && s in jobs && s in all && all[s].pending
    requires RunsOn(j, hosts[i].name) && j.allocationId !in views[i].live && v.live == views[i].live[j.allocationId := h]
    ensures Bijection(hosts, views[i := v], all[s := j], jobs)
  {
    var all' := all[s := j];
    forall t | t in jobs && t in all' && !all'[t].pending
      ensures Placed(hosts, all'[t])
    {
      if t != s {
        assert Placed(hosts, all[t]);
      }
    }
    forall k | 0 <= k < |hosts|
      ensures Owners(hosts[k].name, views[i := v][k].live, all', jobs)
    {
      assert Owners(hosts[k].name, views[k].live, all, jobs);
      if k == i {
        OwnersGain(hosts[i].name, views[i].live, all, jobs, s, j, h);
      } else {
        OwnersElsewhere(hosts[k].name, views[k].live, all, jobs, s, j);
      }
    }
  }

  /** More jobs, later than all before, and more calls, as fair as all before, keep the history in order. */
  lemma HistoryExtends(all: map<Serial, Job>, log: seq<Callback>, all': map<Serial, Job>, log': seq<Callback>)
    requires ServedInOrder(all, log) && LogOk(all, log) && log <= log'
    requires forall s :: s in all ==> s in all' && SameNeeds(all[s], all'[s]) && (all[s].pending || all'[s] == all[s])
    requires forall s, t :: s in all && t in all' && t !in all ==> s < t
    requires forall k :: |log| <= k < |log'| && log'[k].serial in all' ==> Fair(all', log', k)
    ensures ServedInOrder(all', log')
  {
    forall k | 0 <= k < |log'| && log'[k].serial in all'
      ensures Fair(all', log', k)
    {
      if k < |log| {
        assert Fair(all, log, k) && log'[..k] == log[..k];
        if log[k].OnAllocate? {
          assert Decided(log, log[k].serial) by {
            assert log[k].Decides(log[k].serial);
          }
        }
      }
    }
  }

  /** Announcing the allocation of a job that is ahead of all that wait for the machine and are not stranded is fair. */
  lemma StartIsFair(all: map<Serial, Job>, jobs: seq<Serial>, n: Serial, log: seq<Callback>, rec: MachineRec, s: Serial,
      j: Job, c: Callback)
    requires JobsOk(all, jobs, n) && LogOk(all, log) && s in all && all[s].pending && Candidate(all[s], rec)
    requires c.OnAllocate? && c.serial == s && c.host == HostOf(rec) && SameNeeds(j, all[s]) && j.machine == Some(rec.name)
    requires forall t :: t in jobs && t in all && t !in c.stranded && all[t].pending && Candidate(all[t], rec) ==> s <= t
    ensures Fair(all[s := j], log + [c], |log|)
  {
    assert (log + [c])[..|log|] == log;
    forall t | t in all && t < s && t !in c.stranded && Candidate(all[t], RecOf(HostOf(rec)))
      ensures Decided(log, t)
    {
      assert Candidate(all[t], rec);
      assert !all[t].pending;
    }
  }

  /** Allocating a job that waits keeps the bookkeeping in order, whoever else waits. */
  lemma StartKeepsBase(q: Q, i: nat, s: Serial, v0: State, v: State, a: Allocation)
    requires Base(q) && i < |q.machines| && s in q.all && q.all[s].pending
    requires v0.live == q.views[i].live && Inv(q.machines[i].allocator.machine, v0)
    requires Inv(q.machines[i].allocator.machine, v) && Adds(q.machines[i].allocator.machine, v0, v, Some(a))
    ensures Base(Start(q, i, s, v, a))
  {
    Open(q);
    var hosts := Hosts(q.machines);
    var name := q.machines[i].name;
    var j := Started(q.all[s], name, a);
    assert a.id !in v0.live by {
      assert ClaimsOk(v0);
    }
    StartBijection(hosts, q.views, q.all, q.jobs, i, s, j, v, v.live[a.id]);
    LogExtends(q.all, q.log, s, j, OnAllocate(s, HostOf(q.machines[i]), a, q.stranded));
    StartJobs(q.all, q.jobs, q.nextSerial, s, j);
    Close(Start(q, i, s, v, a));
  }

  /** Allocating a job that overtakes nobody but stranded jobs keeps the order of service. */
  lemma StartKeepsOrder(q: Q, i: nat, s: Serial, v: State, a: Allocation)
    requires Orderly(q) && i < |q.machines| && Ready(q, i, s) && Base(Start(q, i, s, v, a))
    ensures Orderly(Start(q, i, s, v, a))
  {
    Open(q);
    var j := Started(q.all[s], q.machines[i].name, a);
    var c := OnAllocate(s, HostOf(q.machines[i]), a, q.stranded);
    StartIsFair(q.all, q.jobs, q.nextSerial, q.log, q.machines[i], s, j, c);
    HistoryExtends(q.all, q.log, q.all[s := j], q.log + [c]);
  }

  lemma StartJobs(all: map<Serial, Job>, jobs: seq<Serial>, nextSerial: Serial, s: Serial, j: Job)
    requires JobsOk(all, jobs, nextSerial) && s in all && !j.pending && j.id == all[s].id && j.demand == all[s].demand
    ensures JobsOk(all[s := j], jobs, nextSerial)
  {
  }

  /** A job that stops waiting may stay in the queues: it will be skipped. */
  lemma QueueAfterDecision(rec: MachineRec, all: map<Serial, Job>, jobs: seq<Serial>, bound: nat, stranded: set<Serial>,
      s: Serial, j: Job)
    requires QueueOk(rec, all, jobs, bound, stranded) && s in all && !j.pending
    ensures QueueOk(rec, all[s := j], jobs, bound, stranded)
  {
  }

  // ----- steps that create and drop jobs and machines

  /** The outcomes of asking for a new job. */
  datatype Creation = Accepted | DuplicateId | MachineAndTags | ValueError

  ghost function CreationFor(
    q: Q, id: int, machineName: Option<string>, tags: Option<set<string>>, demand: Demand): Creation
  {
    if HasJob(q, id) then DuplicateId
    else if machineName.Some? && tags.Some? then MachineAndTags
    else if q.postpone == 0 && Balks(q.machines, NewJob(id, machineName, tags, demand), |q.machines|) then ValueError
    else Accepted
  }

  function TagsOrDefault(tags: Option<set<string>>): set<string> {
    if tags.Some? then tags.value else {"default"}
  }

  function NewJob(id: int, machineName: Option<string>, tags: Option<set<string>>, demand: Demand): Job {
    Job(id, true, machineName, if machineName.Some? then {} else TagsOrDefault(tags), demand, None, 0)
  }

  function Create(q: Q, j: Job): Q {
    q.(all := q.all[q.nextSerial := j], jobs := q.jobs + [q.nextSerial], nextSerial := q.nextSerial + 1)
  }

  lemma CreateJobs(all: map<Serial, Job>, jobs: seq<Serial>, n: Serial, j: Job)
    requires JobsOk(all, jobs, n) && j.pending && j.machine.None?
    requires forall s :: s in jobs && s in all ==> all[s].id != j.id
    ensures n !in all && JobsOk(all[n := j], jobs + [n], n + 1)
  {
    assert forall s :: s in jobs + [n] <==> s in jobs || s == n;
    forall i, k | 0 <= i < k < |jobs + [n]|
      ensures (jobs + [n])[i] < (jobs + [n])[k]
    {
      assert jobs[i] in jobs;
    }
  }

  lemma CreateLog(all: map<Serial, Job>, log: seq<Callback>, n: Serial, j: Job)
    requires LogOk(all, log) && n !in all && j.pending
    ensures LogOk(all[n := j], log)
  {
    forall k | 0 <= k < |log|
      ensures !log[k].Decides(n)
    {
      assert log[k].serial in all;
    }
  }

  lemma CreateBijection(hosts: seq<Host>, views: seq<State>, all: map<Serial, Job>, jobs: seq<Serial>, n: Serial, j: Job)
    requires |views| == |hosts| && Bijection(hosts, views, all, jobs) && n !in all && j.pending
    ensures Bijection(hosts, views, all[n := j], jobs + [n])
  {
    assert forall s :: s in jobs + [n] <==> s in jobs || s == n;
    forall k | 0 <= k < |hosts|
      ensures Owners(hosts[k].name, views[k].live, all[n := j], jobs + [n])
    {
      OwnersSame(hosts[k].name, views[k].live, all, jobs, all[n := j], jobs + [n]);
    }
  }

  lemma CreateKeepsBase(q: Q, j: Job)
    requires Base(q) && j.pending && j.machine.None?
    requires forall s :: s in q.jobs && s in q.all ==> q.all[s].id != j.id
    ensures Base(Create(q, j))
  {
    Open(q);
    CreateJobs(q.all, q.jobs, q.nextSerial, j);
    CreateLog(q.all, q.log, q.nextSerial, j);
    CreateBijection(Hosts(q.machines), q.views, q.all, q.jobs, q.nextSerial, j);
    Close(Create(q, j));
  }

  lemma CreateKeepsOrder(q: Q, j: Job)
    requires Orderly(q) && Base(Create(q, j))
    ensures Orderly(Create(q, j))
  {
    Open(q);
    HistoryExtends(q.all, q.log, q.all[q.nextSerial := j], q.log);
  }

  /** Jobs that do not run on a machine may come and go. */
  lemma OwnersSame(name: string, live: map<int, Holding>, all: map<Serial, Job>, jobs: seq<Serial>,
      all': map<Serial, Job>, jobs': seq<Serial>)
    requires Owners(name, live, all, jobs)
    requires forall s :: s in jobs && s in all && RunsOn(all[s], name) ==> s in jobs' && s in all' && all'[s] == all[s]
    requires forall s :: s in jobs' && s in all' && RunsOn(all'[s], name) ==> s in jobs && s in all && all'[s] == all[s]
    ensures Owners(name, live, all', jobs')
  {
    forall id | id in live
      ensures Owned(name, id, all', jobs')
    {
      assert Owned(name, id, all, jobs);
    }
  }

  function Remove(jobs: seq<Serial>, k: nat): seq<Serial>
    requires k < |jobs|
  {
    jobs[..k] + jobs[k + 1..]
  }

  lemma RemoveExact(jobs: seq<Serial>, k: nat)
    requires Increasing(jobs) && k < |jobs|
    ensures Increasing(Remove(jobs, k))
    ensures forall s :: s in Remove(jobs, k) <==> s in jobs && s != jobs[k]
  {
    var rest := Remove(jobs, k);
    forall s | s in jobs && s != jobs[k]
      ensures s in rest
    {
      var i :| 0 <= i < |jobs| && jobs[i] == s;
      assert rest[if i < k then i else i - 1] == s;
    }
  }

  /** Cancel a job that waits. */
  function Cancel(q: Q, k: nat): Q
    requires k < |q.jobs| && q.jobs[k] in q.all
  {
    var s := q.jobs[k];
    q.(all := q.all[s := q.all[s].(pending := false)], jobs := Remove(q.jobs, k), log := q.log + [OnCancel(s)])
  }

  lemma CancelKeepsBase(q: Q, k: nat)
    requires Base(q) && k < |q.jobs| && q.jobs[k] in q.all && q.all[q.jobs[k]].pending
    ensures Base(Cancel(q, k))
  {
    Open(q);
    var s := q.jobs[k];
    var hosts := Hosts(q.machines);
    var all', jobs' := q.all[s := q.all[s].(pending := false)], Remove(q.jobs, k);
    RemoveExact(q.jobs, k);
    LogExtends(q.all, q.log, s, all'[s], OnCancel(s));
    forall t | t in jobs' && t in all' && !all'[t].pending
      ensures Placed(hosts, all'[t])
    {
      assert Placed(hosts, q.all[t]);
    }
    forall i | 0 <= i < |hosts|
      ensures Owners(hosts[i].name, q.views[i].live, all', jobs')
    {
      OwnersSame(hosts[i].name, q.views[i].live, q.all, q.jobs, all', jobs');
    }
    Close(Cancel(q, k));
  }

  lemma CancelKeepsOrder(q: Q, k: nat)
    requires Orderly(q) && k < |q.jobs| && q.jobs[k] in q.all && Base(Cancel(q, k))
    ensures Orderly(Cancel(q, k))
  {
    Open(q);
    HistoryExtends(q.all, q.log, Cancel(q, k).all, Cancel(q, k).log);
  }

  /** Tell the owner that an allocated job is being destroyed; nothing else changes yet. */
  function AnnounceFree(q: Q, s: Serial): Q {
    q.(log := q.log + [OnFree(s)])
  }

  lemma AnnounceKeepsBase(q: Q, s: Serial)
    requires Base(q) && s in q.all
    ensures Base(AnnounceFree(q, s))
  {
    Open(q);
    var log' := q.log + [OnFree(s)];
    forall t
      ensures Decided(log', t) <==> Decided(q.log, t)
    {
      DecidedExtends(q.log, OnFree(s), t);
    }
    Close(AnnounceFree(q, s));
  }

  lemma AnnounceKeepsOrder(q: Q, s: Serial)
    requires Orderly(q) && Base(AnnounceFree(q, s))
    ensures Orderly(AnnounceFree(q, s))
  {
    Open(q);
    HistoryExtends(q.all, q.log, q.all, q.log + [OnFree(s)]);
  }

  /** Give up the allocation of a job on machine i, whose allocator is then in state v. */
  function Drop(q: Q, k: nat, i: nat, v: State): Q
    requires k < |q.jobs| && i < |q.views|
  {
    q.(jobs := Remove(q.jobs, k), views := q.views[i := v])
  }

  lemma OwnersLose(name: string, live: map<int, Holding>, all: map<Serial, Job>, jobs: seq<Serial>, k: nat)
    requires Increasing(jobs) && k < |jobs| && Owners(name, live, all, jobs)
    requires jobs[k] in all && RunsOn(all[jobs[k]], name)
    ensures Owners(name, live - {all[jobs[k]].allocationId}, all, Remove(jobs, k))
  {
    var jobs' := Remove(jobs, k);
    RemoveExact(jobs, k);
    forall id | id in live - {all[jobs[k]].allocationId}
      ensures Owned(name, id, all, jobs')
    {
      assert Owned(name, id, all, jobs);
      var t :| t in jobs && t in all && RunsOn(all[t], name) && all[t].allocationId == id;
      assert t in jobs';
    }
  }

  lemma DropKeepsBase(q: Q, k: nat, i: nat, v: State)
    requires Base(q) && k < |q.jobs| && q.jobs[k] in q.all && i < |q.machines|
    requires RunsOn(q.all[q.jobs[k]], q.machines[i].name)
    requires v.live == q.views[i].live - {q.all[q.jobs[k]].allocationId} && Inv(q.machines[i].allocator.machine, v)
    ensures Base(Drop(q, k, i, v))
  {
    Open(q);
    var hosts := Hosts(q.machines);
    var jobs' := Remove(q.jobs, k);
    RemoveExact(q.jobs, k);
    forall t | t in jobs' && t in q.all && !q.all[t].pending
      ensures Placed(hosts, q.all[t])
    {
      assert t in q.jobs;
    }
    forall l | 0 <= l < |hosts|
      ensures Owners(hosts[l].name, q.views[i := v][l].live, q.all, jobs')
    {
      assert Owners(hosts[l].name, q.views[l].live, q.all, q.jobs);
      if l == i {
        OwnersLose(hosts[i].name, q.views[i].live, q.all, q.jobs, k);
      } else {
        assert hosts[l].name != hosts[i].name;
        OwnersSame(hosts[l].name, q.views[l].live, q.all, q.jobs, q.all, jobs');
      }
    }
    Close(Drop(q, k, i, v));
  }

  function AddMachine(q: Q, rec: MachineRec, v: State): Q {
    q.(machines := q.machines + [rec], views := q.views + [v])
  }

  lemma AddMachineKeepsBase(q: Q, rec: MachineRec, v: State)
    requires Base(q) && v.live == map[] && Inv(rec.allocator.machine, v)
    requires forall i :: 0 <= i < |q.machines| ==> q.machines[i].name != rec.name
    ensures Base(AddMachine(q, rec, v))
  {
    Open(q);
    var hosts := Hosts(q.machines);
    var q' := AddMachine(q, rec, v);
    var hosts' := Hosts(q'.machines);
    assert hosts' == hosts + [Host(rec.name, rec.tags, rec.allocator)];
    forall s | s in q.jobs && s in q.all && !q.all[s].pending
      ensures Placed(hosts', q.all[s]) && !RunsOn(q.all[s], rec.name)
    {
      assert Placed(hosts, q.all[s]);
      var i :| 0 <= i < |hosts| && RunsOn(q.all[s], hosts[i].name);
      assert RunsOn(q.all[s], hosts'[i].name);
    }
    forall i | 0 <= i < |hosts'|
      ensures Owners(hosts'[i].name, q'.views[i].live, q.all, q.jobs)
    {
      assert i < |hosts| ==> Owners(hosts[i].name, q.views[i].live, q.all, q.jobs);
    }
    Close(q');
  }

  function RemoveMachine(q: Q, i: nat): Q
    requires i < |q.machines| == |q.views|
  {
    q.(machines := q.machines[..i] + q.machines[i + 1..], views := q.views[..i] + q.views[i + 1..])
  }

  /** The position, before entry i went, of what is now entry k. */
  function Before(k: nat, i: nat): nat {
    if k < i then k else k + 1
  }

  lemma RemoveHost(hosts: seq<Host>, views: seq<State>, i: nat)
    requires i < |hosts| && NamesOk(hosts) && AllocatorsOk(hosts, views)
    ensures NamesOk(hosts[..i] + hosts[i + 1..])
    ensures AllocatorsOk(hosts[..i] + hosts[i + 1..], views[..i] + views[i + 1..])
  {
    var hosts', views' := hosts[..i] + hosts[i + 1..], views[..i] + views[i + 1..];
    forall k | 0 <= k < |hosts'|
      ensures Sane(hosts'[k], views'[k])
    {
      assert hosts'[k] == hosts[Before(k, i)] && views'[k] == views[Before(k, i)];
      assert Sane(hosts[Before(k, i)], views[Before(k, i)]);
    }
  }

  lemma RemoveHostBijection(hosts: seq<Host>, views: seq<State>, all: map<Serial, Job>, jobs: seq<Serial>, i: nat)
    requires i < |hosts| == |views| && Bijection(hosts, views, all, jobs)
    requires forall s :: s in jobs && s in all ==> !RunsOn(all[s], hosts[i].name)
    ensures Bijection(hosts[..i] + hosts[i + 1..], views[..i] + views[i + 1..], all, jobs)
  {
    var hosts', views' := hosts[..i] + hosts[i + 1..], views[..i] + views[i + 1..];
    forall s | s in jobs && s in all && !all[s].pending
      ensures Placed(hosts', all[s])
    {
      assert Placed(hosts, all[s]);
      var k :| 0 <= k < |hosts| && RunsOn(all[s], hosts[k].name);
      assert hosts'[if k < i then k else k - 1] == hosts[k];
    }
    forall k | 0 <= k < |hosts'|
      ensures Owners(hosts'[k].name, views'[k].live, all, jobs)
    {
      assert hosts'[k] == hosts[Before(k, i)] && views'[k] == views[Before(k, i)];
      assert Owners(hosts[Before(k, i)].name, views[Before(k, i)].live, all, jobs);
    }
  }

  lemma RemoveMachineKeepsBase(q: Q, i: nat)
    requires Base(q) && i < |q.machines|
    requires forall s :: s in q.jobs && s in q.all ==> !RunsOn(q.all[s], q.machines[i].name)
    ensures Base(RemoveMachine(q, i))
  {
    Open(q);
    var hosts := Hosts(q.machines);
    assert Hosts(RemoveMachine(q, i).machines) == hosts[..i] + hosts[i + 1..];
    RemoveHost(hosts, q.views, i);
    RemoveHostBijection(hosts, q.views, q.all, q.jobs, i);
    Close(RemoveMachine(q, i));
  }

  // ----- where processing the queues stops

  /** Machine i has nothing to do: its queue is empty, or the job at its head waits and has just been refused. */
  ghost predicate Settled(q: Q, i: nat)
    requires i < |q.machines| && i < |q.views|
  {
    var rec := q.machines[i];
    rec.queue == []
    || (&& rec.queue[0] in q.all && q.all[rec.queue[0]].pending
        && Outcome(rec.allocator.machine, q.views[i], q.all[rec.queue[0]].demand, q.views[i], None))
  }

  // ----- what the queue does of its own accord

  /** Job s waits for machine i, which could serve it. */
  ghost predicate Waits(q: Q, i: nat, s: Serial)
    requires i < |q.machines|
  {
    s in q.all && q.all[s].pending && Candidate(q.all[s], q.machines[i])
  }

  /** An attempt to allocate a job that waits for machine i may come to this; v is the allocator's new state. */
  ghost predicate Gives(q: Q, i: nat, s: Serial, now: int, v: State, r: Option<Allocation>) {
    && i < |q.machines| == |q.views| && Waits(q, i, s)
    && Outcome(q.machines[i].allocator.machine, CheckedView(q, i, now), q.all[s].demand, v, r)
  }

  /**
   * The smallest things that happen while queues are processed or rebuilt: the head of a queue is tried, a job is
   * cancelled for want of machines, or the contents of the queues change and which jobs are stranded.
   */
  datatype Event =
    | Tried(i: nat, s: Serial, now: int, v: State, r: Option<Allocation>)
    | GivenUp(k: nat)
    | Requeued(queues: seq<seq<Serial>>, stranded: set<Serial>)

  /** The same machines with other queues. */
  function WithQueues(machines: seq<MachineRec>, queues: seq<seq<Serial>>): (machines': seq<MachineRec>)
    requires |queues| == |machines|
    ensures Hosts(machines') == Hosts(machines)
  {
    seq(|machines|, i requires 0 <= i < |machines| => machines[i].(queue := queues[i]))
  }

  ghost predicate Happens(q: Q, e: Event) {
    match e
    case Tried(i, s, now, v, r) =>
      Gives(q, i, s, now, v, r) && q.machines[i].queue != [] && q.machines[i].queue[0] == s
    case GivenUp(k) =>
      && k < |q.jobs| && q.jobs[k] in q.all && q.all[q.jobs[k]].pending
      && !HasCandidate(q.machines, q.all[q.jobs[k]], |q.machines|) && !Balks(q.machines, q.all[q.jobs[k]], |q.machines|)
    case Requeued(queues, _) => |queues| == |q.machines|
  }

  ghost function After(q: Q, e: Event): Q
    requires Happens(q, e)
  {
    match e
    case Tried(i, s, _, v, r) => if r.Some? then Start(q, i, s, v, r.value) else q.(views := q.views[i := v])
    case GivenUp(k) => Cancel(q, k)
    case Requeued(queues, stranded) => q.(machines := WithQueues(q.machines, queues), stranded := stranded)
  }

  ghost predicate Leads(q: Q, events: seq<Event>, q': Q)
    decreases |events|
  {
    if events == [] then q' == q
    else Happens(q, events[0]) && Leads(After(q, events[0]), events[1..], q')
  }

  /** Nothing but such events happens between the two states. */
  ghost predicate Course(q: Q, q': Q) {
    exists events :: Leads(q, events, q')
  }

  lemma {:induction false} LeadsFurther(p: Q, first: seq<Event>, q: Q, second: seq<Event>, r: Q)
    requires Leads(p, first, q) && Leads(q, second, r)
    ensures Leads(p, first + second, r)
    decreases |first|
  {
    if first == [] {
      assert first + second == second;
    } else {
      assert (first + second)[1..] == first[1..] + second;
      LeadsFurther(After(p, first[0]), first[1..], q, second, r);
    }
  }

  lemma CourseGoesOn(p: Q, q: Q, r: Q)
    requires Course(p, q) && Course(q, r)
    ensures Course(p, r)
  {
    var first :| Leads(p, first, q);
    var second :| Leads(q, second, r);
    LeadsFurther(p, first, q, second, r);
  }

  lemma CourseStands(q: Q)
    ensures Course(q, q)
  {
    assert Leads(q, [], q);
  }

  lemma CourseOfOne(q: Q, e: Event)
    requires Happens(q, e)
    ensures Course(q, After(q, e))
  {
    assert Leads(After(q, e), [], After(q, e));
    assert Leads(q, [e], After(q, e));
  }

  /** Only the contents of queues, and which jobs are stranded, have changed. */
  lemma CourseOfRequeue(q: Q, q': Q)
    requires Hosts(q'.machines) == Hosts(q.machines) && q' == q.(machines := q'.machines, stranded := q'.stranded)
    ensures Course(q, q')
  {
    assert |q'.machines| == |Hosts(q'.machines)| == |q.machines|;
    var queues := seq(|q.machines|, i requires 0 <= i < |q.machines| => q'.machines[i].queue);
    forall i | 0 <= i < |q.machines|
      ensures q'.machines[i] == q.machines[i].(queue := queues[i])
    {
      assert HostOf(q'.machines[i]) == Hosts(q'.machines)[i] == HostOf(q.machines[i]);
    }
    assert WithQueues(q.machines, queues) == q'.machines;
    CourseOfOne(q, Requeued(queues, q'.stranded));
  }

  /** q' follows from q by processing: jobs may have started, and nothing else has happened to them. */
  ghost predicate Progress(q: Q, q': Q) {
    && Course(q, q')
    && q'.jobs == q.jobs && q'.nextSerial == q.nextSerial && q'.postpone == q.postpone
    && Hosts(q'.machines) == Hosts(q.machines) && q'.stranded == q.stranded
    && q'.all.Keys == q.all.Keys
    && (forall s {:trigger Advanced(q.machines, q.all[s], q'.all[s])} ::
          s in q.all ==> Advanced(q.machines, q.all[s], q'.all[s]))
    && q.log <= q'.log && forall k :: |q.log| <= k < |q'.log| ==> q'.log[k].OnAllocate?
  }

  /** The job is as before, or has started, which only a candidate of some machine does. */
  ghost predicate Advanced(machines: seq<MachineRec>, j: Job, j': Job) {
    || j' == j
    || (&& j.pending && !j'.pending && j'.machine.Some? && HasCandidate(machines, j, |machines|)
        && j' == j.(pending := false, machine := j'.machine, allocationId := j'.allocationId))
  }

  lemma ProgressTransitive(p: Q, q: Q, r: Q)
    requires Progress(p, q) && Progress(q, r)
    ensures Progress(p, r)
  {
    CourseGoesOn(p, q, r);
    forall s | s in p.all
      ensures Advanced(p.machines, p.all[s], r.all[s])
    {
      assert Advanced(p.machines, p.all[s], q.all[s]) && Advanced(q.machines, q.all[s], r.all[s]);
      CandidatesByHost(p.machines, q.machines, p.all[s]);
    }
  }

  lemma ProgressReflexive(q: Q)
    ensures Progress(q, q)
  {
    CourseStands(q);
  }

  /** The jobs that wait. */
  function Waiting(all: map<Serial, Job>): set<Serial> {
    set s | s in all && all[s].pending
  }

  lemma CandidateSensible(j: Job, rec: MachineRec)
    requires Candidate(j, rec)
    ensures j.demand.request.Sensible() && !Rejected(j.demand)
  {
  }

  /** Drop the head of the queue of machine i. */
  function Pop(machines: seq<MachineRec>, i: nat): seq<MachineRec>
    requires i < |machines| && machines[i].queue != []
  {
    machines[i := machines[i].(queue := machines[i].queue[1..])]
  }

  lemma PopKeeps(q: Q, i: nat, bound: nat)
    requires Orderly(q) && QueuesOk(q, bound) && i < |q.machines| && q.machines[i].queue != []
    requires q.machines[i].queue[0] in q.all ==> !q.all[q.machines[i].queue[0]].pending
    ensures var q' := q.(machines := Pop(q.machines, i)); Orderly(q') && QueuesOk(q', bound)
  {
    Open(q);
    var q' := q.(machines := Pop(q.machines, i));
    assert Hosts(q'.machines) == Hosts(q.machines);
    forall k | 0 <= k < |q'.machines|
      ensures QueueOk(q'.machines[k], q.all, q.jobs, bound, q.stranded)
    {
      assert QueueOk(q.machines[k], q.all, q.jobs, bound, q.stranded);
      if k == i {
        PopQueue(q.machines[i], q.all, q.jobs, bound, q.stranded);
      }
    }
    Close(q');
  }

  lemma PopQueue(rec: MachineRec, all: map<Serial, Job>, jobs: seq<Serial>, bound: nat, stranded: set<Serial>)
    requires QueueOk(rec, all, jobs, bound, stranded) && rec.queue != [] && rec.queue[0] in all && !all[rec.queue[0]].pending
    ensures QueueOk(rec.(queue := rec.queue[1..]), all, jobs, bound, stranded)
  {
    var rec' := rec.(queue := rec.queue[1..]);
    assert rec.queue == [rec.queue[0]] + rec'.queue;
    forall s | s in all
      ensures Candidate(all[s], rec') <==> Candidate(all[s], rec)
    {
    }
  }

  lemma StartKeepsQueues(q: Q, i: nat, s: Serial, v: State, a: Allocation, bound: nat)
    requires QueuesOk(q, bound) && i < |q.machines| && i < |q.views| && s in q.all
    ensures QueuesOk(Start(q, i, s, v, a), bound)
  {
    var j := Started(q.all[s], q.machines[i].name, a);
    forall k | 0 <= k < |q.machines|
      ensures QueueOk(q.machines[k], q.all[s := j], q.jobs, bound, q.stranded)
    {
      QueueAfterDecision(q.machines[k], q.all, q.jobs, bound, q.stranded, s, j);
    }
  }

  /** No job that waits for this machine, and is not stranded, was created before s. */
  ghost predicate NobodyAhead(q: Q, i: nat, s: Serial)
    requires i < |q.machines|
  {
    forall t :: t in q.jobs && t in q.all && t !in q.stranded && q.all[t].pending && Candidate(q.all[t], q.machines[i]) ==> s <= t
  }

  /** Job s waits for machine i, which could serve it, and is first in line there. */
  ghost predicate Ready(q: Q, i: nat, s: Serial)
    requires i < |q.machines|
  {
    Waits(q, i, s) && NobodyAhead(q, i, s)
  }

  lemma HeadReady(q: Q, i: nat, bound: nat)
    requires QueuesOk(q, bound) && i < |q.machines| && q.machines[i].queue != []
    requires q.machines[i].queue[0] in q.all && q.all[q.machines[i].queue[0]].pending
    ensures Ready(q, i, q.machines[i].queue[0])
  {
    assert QueueOk(q.machines[i], q.all, q.jobs, bound, q.stranded);
    assert q.machines[i].queue[0] in q.machines[i].queue;
    forall t | t in q.jobs && t in q.all && t !in q.stranded && q.all[t].pending && Candidate(q.all[t], q.machines[i])
      ensures q.machines[i].queue[0] <= t
    {
      HeadIsFirst(q.machines[i], q.all, q.jobs, bound, q.stranded, t);
    }
  }

  lemma HeadCandidate(q: Q, i: nat, bound: nat)
    requires QueuesOk(q, bound) && i < |q.machines| && q.machines[i].queue != []
    requires q.machines[i].queue[0] in q.all && q.all[q.machines[i].queue[0]].pending
    ensures Candidate(q.all[q.machines[i].queue[0]], q.machines[i])
  {
    assert QueueOk(q.machines[i], q.all, q.jobs, bound, q.stranded);
    assert q.machines[i].queue[0] in q.machines[i].queue;
  }

  lemma HeadKnown(q: Q, i: nat, bound: nat)
    requires QueuesOk(q, bound) && i < |q.machines| && q.machines[i].queue != []
    ensures q.machines[i].queue[0] in q.all
  {
    assert QueueOk(q.machines[i], q.all, q.jobs, bound, q.stranded);
    assert q.machines[i].queue[0] in q.machines[i].queue;
  }

  lemma StartProgress(q: Q, i: nat, s: Serial, now: int, v: State, a: Allocation)
    requires Happens(q, Tried(i, s, now, v, Some(a)))
    ensures Progress(q, Start(q, i, s, v, a))
    ensures |Waiting(Start(q, i, s, v, a).all)| < |Waiting(q.all)|
  {
    CourseOfOne(q, Tried(i, s, now, v, Some(a)));
    assert Waiting(q.all) == Waiting(Start(q, i, s, v, a).all) + {s};
  }

  /** Everything is as in q, but for the queue of machine i, which has lost entries that no longer wait. */
  ghost predicate Skipped(q: Q, q': Q, i: nat)
    requires i < |q.machines|
  {
    && |q'.machines| == |q.machines|
    && q' == q.(machines := q.machines[i := q.machines[i].(queue := q'.machines[i].queue)])
  }

  /** What one visit to machine i can do: only its queue changes, and either a job starts or it is settled. */
  ghost predicate Visited(q: Q, q': Q, i: nat, changed: bool)
    requires i < |q.machines|
  {
    && Progress(q, q') && |q'.machines| == |q.machines| && |q'.views| == |q.views|
    && (changed ==> |Waiting(q'.all)| < |Waiting(q.all)|)
    && (!changed ==> Resting(q, q', i) && i < |q'.views| && Settled(q', i))
  }

  ghost predicate Resting(q: Q, q': Q, i: nat)
    requires i < |q.machines| == |q'.machines| && |q.views| == |q'.views|
  {
    && q'.all == q.all && q'.log == q.log
    && forall k :: 0 <= k < |q.machines| && k != i ==>
         q'.machines[k] == q.machines[k] && (k < |q.views| ==> q'.views[k] == q.views[k])
  }

  ghost predicate AllSettled(q: Q, n: nat)
    requires n <= |q.machines| && n <= |q.views|
  {
    forall k {:trigger Settled(q, k)} :: 0 <= k < n ==> Settled(q, k)
  }

  lemma SettledKeeps(q: Q, q': Q, i: nat)
    requires i < |q.machines| == |q'.machines| && |q.views| == |q'.views| == |q.machines|
    requires AllSettled(q, i) && Resting(q, q', i) && Settled(q', i)
    ensures AllSettled(q', i + 1)
  {
    forall k | 0 <= k < i
      ensures Settled(q', k)
    {
      assert Settled(q, k);
    }
  }

  /** What one attempt to allocate a job that waits for a machine leads to. */
  lemma AfterAttempt(q: Q, i: nat, s: Serial, now: int, v: State, r: Option<Allocation>)
    requires Base(q) && Gives(q, i, s, now, v, r)
    ensures r.Some? ==> Base(Start(q, i, s, v, r.value))
    ensures r.None? ==> Base(q.(views := q.views[i := v]))
    ensures r.None? ==> Outcome(q.machines[i].allocator.machine, v, q.all[s].demand, v, None)
  {
    Open(q);
    var a := q.machines[i].allocator;
    assert Sane(Hosts(q.machines)[i], q.views[i]);
    CheckFreeKeeps(a.machine, a.secondsBeforeFree, q.views[i], now);
    var n := CheckFreeDrops(a.machine, a.secondsBeforeFree, q.views[i], now);
    CandidateSensible(q.all[s], q.machines[i]);
    OutcomeKeeps(a.machine, CheckedView(q, i, now), q.all[s].demand, v, r);
    if r.Some? {
      StartKeepsBase(q, i, s, CheckedView(q, i, now), v, r.value);
    } else {
      QuietKeepsBase(q, i, v);
    }
  }

  lemma SkippedProgress(q: Q, q': Q, i: nat)
    requires i < |q.machines| == |q.views| && Skipped(q, q', i)
    ensures Progress(q, q') && Resting(q, q', i)
    ensures q'.machines[i].queue == [] ==> Visited(q, q', i, false)
  {
    assert Hosts(q'.machines) == Hosts(q.machines);
    CourseOfRequeue(q, q');
  }

  /** A visit that starts with skipping decided jobs is still one visit. */
  lemma VisitedAfterSkip(q: Q, q1: Q, q2: Q, i: nat, changed: bool)
    requires i < |q.machines| == |q.views| && Skipped(q, q1, i) && Visited(q1, q2, i, changed)
    ensures Visited(q, q2, i, changed)
  {
    SkippedProgress(q, q1, i);
    ProgressTransitive(q, q1, q2);
  }

  /** Starting the head of a queue and dropping it. */
  lemma StartVisited(q: Q, i: nat, s: Serial, now: int, v: State, a: Allocation)
    requires Happens(q, Tried(i, s, now, v, Some(a)))
    ensures var q' := Start(q, i, s, v, a);
            q'.machines == q.machines && Visited(q, q'.(machines := Pop(q'.machines, i)), i, true)
  {
    StartProgress(q, i, s, now, v, a);
    var q' := Start(q, i, s, v, a);
    var q'' := q'.(machines := Pop(q'.machines, i));
    assert Hosts(q''.machines) == Hosts(q.machines);
    CourseOfRequeue(q', q'');
    CourseGoesOn(q, q', q'');
  }

  /** Only an allocator's state has changed. */
  lemma RestVisited(q: Q, i: nat, s: Serial, now: int, v: State, bound: nat)
    requires Happens(q, Tried(i, s, now, v, None))
    requires QueuesOk(q, bound) && Settled(q.(views := q.views[i := v]), i)
    ensures var q' := q.(views := q.views[i := v]);
            QueuesOk(q', bound) && Visited(q, q', i, false)
  {
    var q' := q.(views := q.views[i := v]);
    CourseOfOne(q, Tried(i, s, now, v, None));
    assert Progress(q, q');
  }

  /** One pass over the first n machines: whoever could start has started, or else everyone is settled. */
  ghost predicate Passed(q: Q, q': Q, n: nat, changed: bool)
  {
    && Progress(q, q') && |q'.machines| == |q.machines| && |q'.views| == |q.views| == |q.machines| && n <= |q.machines|
    && (changed ==> |Waiting(q'.all)| < |Waiting(q.all)|)
    && (!changed ==> q'.all == q.all && q'.log == q.log && AllSettled(q', n))
  }

  lemma PassStarts(q: Q)
    requires |q.views| == |q.machines|
    ensures Passed(q, q, 0, false)
  {
    ProgressReflexive(q);
  }

  lemma PassGoesOn(q: Q, q1: Q, q2: Q, i: nat, before: bool, now: bool)
    requires i < |q.machines| && Passed(q, q1, i, before) && Visited(q1, q2, i, now)
    ensures Passed(q, q2, i + 1, before || now)
  {
    ProgressTransitive(q, q1, q2);
    WaitingShrinks(q, q1);
    WaitingShrinks(q1, q2);
    if !before && !now {
      SettledKeeps(q1, q2, i);
    }
  }

  lemma WaitingShrinks(q: Q, q': Q)
    requires Progress(q, q')
    ensures |Waiting(q'.all)| <= |Waiting(q.all)|
  {
    assert Waiting(q'.all) <= Waiting(q.all) by {
      forall s | s in Waiting(q'.all)
        ensures s in Waiting(q.all)
      {
        assert Advanced(q.machines, q.all[s], q'.all[s]);
      }
    }
    SubsetCount(Waiting(q'.all), Waiting(q.all));
  }

  /** The outcome of processing the queues: nothing if postponed, else progress until everyone is settled. */
  ghost predicate Processed(q: Q, q': Q) {
    && Progress(q, q')
    && (if q.postpone > 0 then q' == q else |q'.views| == |q'.machines| && AllSettled(q', |q'.machines|))
  }

  // ----- destroying and freeing

  /** Destroy a job: cancel it if it waits, else announce that it is to be freed. */
  function Destroy(q: Q, k: nat): Q
    requires k < |q.jobs| && q.jobs[k] in q.all
  {
    if q.all[q.jobs[k]].pending then Cancel(q, k) else AnnounceFree(q, q.jobs[k])
  }

  lemma DestroyKeeps(q: Q, k: nat, bound: nat)
    requires Orderly(q) && k < |q.jobs| && q.jobs[k] in q.all
    ensures Orderly(Destroy(q, k))
    ensures Tidy(q, bound) ==> Tidy(Destroy(q, k), bound)
  {
    if q.all[q.jobs[k]].pending {
      CancelKeepsBase(q, k);
      CancelKeepsOrder(q, k);
      if QueuesOk(q, bound) {
        CancelKeepsQueues(q, k, bound);
      }
    } else {
      AnnounceKeepsBase(q, q.jobs[k]);
      AnnounceKeepsOrder(q, q.jobs[k]);
      if QueuesOk(q, bound) {
        SameQueues(q, AnnounceFree(q, q.jobs[k]), bound);
      }
    }
  }

  lemma SameQueues(q: Q, q': Q, bound: nat)
    requires QueuesOk(q, bound) && q'.machines == q.machines && q'.all == q.all && q'.jobs == q.jobs
    requires q'.stranded == q.stranded
    ensures QueuesOk(q', bound)
  {
    forall i | 0 <= i < |q'.machines|
      ensures QueueOk(q'.machines[i], q'.all, q'.jobs, bound, q'.stranded)
    {
      assert QueueOk(q.machines[i], q.all, q.jobs, bound, q.stranded);
    }
  }

  lemma CancelKeepsQueues(q: Q, k: nat, bound: nat)
    requires Base(q) && QueuesOk(q, bound) && k < |q.jobs| && q.jobs[k] in q.all
    ensures QueuesOk(Cancel(q, k), bound)
  {
    Open(q);
    var s := q.jobs[k];
    var j := q.all[s].(pending := false);
    RemoveExact(q.jobs, k);
    forall i | 0 <= i < |q.machines|
      ensures QueueOk(q.machines[i], q.all[s := j], Remove(q.jobs, k), bound, q.stranded)
    {
      QueueAfterDecision(q.machines[i], q.all, q.jobs, bound, q.stranded, s, j);
      FewerJobs(q.machines[i], q.all[s := j], q.jobs, Remove(q.jobs, k), bound, q.stranded);
    }
  }

  lemma FewerJobs(rec: MachineRec, all: map<Serial, Job>, jobs: seq<Serial>, jobs': seq<Serial>, bound: nat,
      stranded: set<Serial>)
    requires QueueOk(rec, all, jobs, bound, stranded) && forall s :: s in jobs' ==> s in jobs
    ensures QueueOk(rec, all, jobs', bound, stranded)
  {
  }

  lemma DropKeepsQueues(q: Q, k: nat, i: nat, v: State, bound: nat)
    requires Base(q) && QueuesOk(q, bound) && k < |q.jobs| && i < |q.views|
    ensures QueuesOk(Drop(q, k, i, v), bound)
  {
    Open(q);
    RemoveExact(q.jobs, k);
    forall l | 0 <= l < |q.machines|
      ensures QueueOk(q.machines[l], q.all, Remove(q.jobs, k), bound, q.stranded)
    {
      FewerJobs(q.machines[l], q.all, q.jobs, Remove(q.jobs, k), bound, q.stranded);
    }
  }

  ghost predicate HasJob(q: Q, id: int) {
    exists k :: 0 <= k < |q.jobs| && q.jobs[k] in q.all && q.all[q.jobs[k]].id == id
  }

  /** The k-th job is the one with this identifier. */
  predicate IsJob(q: Q, k: int, id: int) {
    0 <= k < |q.jobs| && q.jobs[k] in q.all && q.all[q.jobs[k]].id == id
  }

  /** An allocated job is on a machine, which holds its allocation. */
  lemma AllocationHeld(q: Q, k: nat) returns (i: nat)
    requires Base(q) && k < |q.jobs| && q.jobs[k] in q.all && !q.all[q.jobs[k]].pending
    ensures i < |q.machines| == |q.views| && RunsOn(q.all[q.jobs[k]], q.machines[i].name)
    ensures q.all[q.jobs[k]].allocationId in q.views[i].live
    ensures Inv(q.machines[i].allocator.machine, q.views[i])
  {
    Open(q);
    var hosts := Hosts(q.machines);
    assert Placed(hosts, q.all[q.jobs[k]]);
    i :| 0 <= i < |hosts| && RunsOn(q.all[q.jobs[k]], hosts[i].name);
    assert Owners(hosts[i].name, q.views[i].live, q.all, q.jobs);
    assert Sane(hosts[i], q.views[i]);
  }

  lemma NameIsUnique(q: Q, i: nat, j: nat)
    requires Base(q) && i < |q.machines| && j < |q.machines| && q.machines[i].name == q.machines[j].name
    ensures i == j
  {
    Open(q);
    var hosts := Hosts(q.machines);
    assert hosts[i].name == hosts[j].name;
  }

  lemma ReleaseFacts(m: Machine, s: State, id: int, now: int)
    requires Inv(m, s) && id in s.live
    ensures Inv(m, Release(s, id, now)) && Release(s, id, now).live == s.live - {id}
  {
    ReleaseKeeps(m, s, id, now);
  }

  /** The state after job k has given up its allocation on machine i. */
  function Freed(q: Q, k: nat, i: nat, now: int): Q
    requires k < |q.jobs| && q.jobs[k] in q.all && i < |q.views|
    requires q.all[q.jobs[k]].allocationId in q.views[i].live
  {
    Drop(q, k, i, Release(q.views[i], q.all[q.jobs[k]].allocationId, now))
  }

  /** Job k is allocated on machine i, which holds its allocation. */
  ghost predicate Freeable(q: Q, k: nat, i: nat) {
    && k < |q.jobs| && q.jobs[k] in q.all && i < |q.machines| == |q.views|
    && RunsOn(q.all[q.jobs[k]], q.machines[i].name)
    && q.all[q.jobs[k]].allocationId in q.views[i].live
    && Inv(q.machines[i].allocator.machine, q.views[i])
  }

  lemma FreeReady(q: Q, k: nat, i: nat, now: int, bound: nat)
    requires Base(q) && Tidy(q, bound) && k < |q.jobs| && q.jobs[k] in q.all && !q.all[q.jobs[k]].pending
    requires i < |q.machines| && q.all[q.jobs[k]].machine == Some(q.machines[i].name)
    ensures Freeable(q, k, i) && Base(Freed(q, k, i, now)) && Tidy(Freed(q, k, i, now), bound)
  {
    var j := AllocationHeld(q, k);
    NameIsUnique(q, i, j);
    var v := Release(q.views[i], q.all[q.jobs[k]].allocationId, now);
    ReleaseFacts(q.machines[i].allocator.machine, q.views[i], q.all[q.jobs[k]].allocationId, now);
    DropKeepsBase(q, k, i, v);
    if q.postpone == 0 {
      DropKeepsQueues(q, k, i, v, bound);
    }
  }

  /** An allocated job names a machine that is there. */
  lemma MachineExists(q: Q, k: nat)
    requires Base(q) && k < |q.jobs| && q.jobs[k] in q.all && !q.all[q.jobs[k]].pending
    ensures q.all[q.jobs[k]].machine.Some?
    ensures exists i :: 0 <= i < |q.machines| && q.machines[i].name == q.all[q.jobs[k]].machine.value
  {
    var i := AllocationHeld(q, k);
  }

  // ----- offering a job to the machines

  /** The machines' queues once job s has been offered to the first n of them. */
  ghost predicate OfferedTo(before: seq<MachineRec>, after: seq<MachineRec>, j: Job, s: Serial, n: nat) {
    && |after| == |before| && n <= |before|
    && (forall i {:trigger after[i]} :: 0 <= i < n ==> after[i] == Offer(before[i], j, s))
    && (forall i {:trigger after[i]} :: n <= i < |before| ==> after[i] == before[i])
  }

  ghost function Offer(rec: MachineRec, j: Job, s: Serial): MachineRec {
    if Candidate(j, rec) then rec.(queue := rec.queue + [s]) else rec
  }

  lemma OfferQueue(rec: MachineRec, all: map<Serial, Job>, jobs: seq<Serial>, s: Serial, stranded: set<Serial>)
    requires QueueOk(rec, all, jobs, s, stranded) && s in all && all[s].pending && s !in stranded
    ensures QueueOk(Offer(rec, all[s], s), all, jobs, s + 1, stranded)
  {
    if Candidate(all[s], rec) {
      AppendedInOrder(rec.queue, s);
      AppendedQueue(rec, all, jobs, s, stranded);
    }
  }

  lemma AppendedInOrder(queue: seq<Serial>, s: Serial)
    requires Increasing(queue) && forall t :: t in queue ==> t < s
    ensures Increasing(queue + [s]) && forall t :: t in queue + [s] <==> t in queue || t == s
  {
    forall i, k | 0 <= i < k < |queue + [s]|
      ensures (queue + [s])[i] < (queue + [s])[k]
    {
      if k == |queue| {
        assert queue[i] in queue;
      }
    }
  }

  lemma AppendedQueue(rec: MachineRec, all: map<Serial, Job>, jobs: seq<Serial>, s: Serial, stranded: set<Serial>)
    requires QueueOk(rec, all, jobs, s, stranded) && s in all && all[s].pending && s !in stranded && Candidate(all[s], rec)
    requires Increasing(rec.queue + [s]) && forall t :: t in rec.queue + [s] <==> t in rec.queue || t == s
    ensures QueueOk(rec.(queue := rec.queue + [s]), all, jobs, s + 1, stranded)
  {
    forall t | t in all
      ensures Candidate(all[t], rec.(queue := rec.queue + [s])) <==> Candidate(all[t], rec)
    {
    }
  }

  lemma OfferedKeeps(q: Q, machines: seq<MachineRec>, s: Serial)
    requires Orderly(q) && QueuesOk(q, s) && s in q.all && q.all[s].pending
    requires OfferedTo(q.machines, machines, q.all[s], s, |q.machines|)
    ensures var q' := q.(machines := machines); Orderly(q') && QueuesOk(q', s + 1) && Progress(q, q')
  {
    Open(q);
    var q' := q.(machines := machines);
    assert Hosts(machines) == Hosts(q.machines);
    forall i | 0 <= i < |machines|
      ensures QueueOk(machines[i], q.all, q.jobs, s + 1, q.stranded)
    {
      assert QueueOk(q.machines[i], q.all, q.jobs, s, q.stranded);
      OfferQueue(q.machines[i], q.all, q.jobs, s, q.stranded);
    }
    CourseOfRequeue(q, q');
    Close(q');
  }

  /**
   * What became of a job that was offered to all machines, at position k of the jobs. Nothing while management is
   * suspended or when a machine raises an error; else it is queued or cancelled, and the queues are processed.
   */
  ghost predicate Served(q: Q, s: Serial, k: nat, q': Q) {
    && k < |q.jobs| && q.jobs[k] == s && s in q.all
    && (if q.postpone > 0 || Balks(q.machines, q.all[s], |q.machines|) then q' == q
        else
          && |q'.views| == |q'.machines| && AllSettled(q', |q'.machines|)
          && Progress(if HasCandidate(q.machines, q.all[s], |q.machines|) then q else Cancel(q, k), q'))
  }

  lemma ServedSerials(q: Q, s: Serial, k: nat, q': Q)
    requires Served(q, s, k, q')
    ensures q'.nextSerial == q.nextSerial && q'.postpone == q.postpone
  {
  }

  lemma PositionOf(q: Q, s: Serial) returns (k: nat)
    requires s in q.jobs
    ensures k < |q.jobs| && q.jobs[k] == s
  {
    k :| 0 <= k < |q.jobs| && q.jobs[k] == s;
  }

  lemma IdIsUnique(q: Q, k: nat, l: nat)
    requires Base(q) && k < |q.jobs| && l < |q.jobs| && q.jobs[k] in q.all && q.jobs[l] in q.all
    requires q.all[q.jobs[k]].id == q.all[q.jobs[l]].id
    ensures k == l
  {
    Open(q);
  }

  // ----- rebuilding the queues

  predicate Cleared(before: seq<MachineRec>, after: seq<MachineRec>) {
    |after| == |before| && forall i :: 0 <= i < |before| ==> after[i] == before[i].(queue := [])
  }

  lemma ClearedKeeps(q: Q, machines: seq<MachineRec>)
    requires Orderly(q) && Cleared(q.machines, machines)
    ensures var q' := q.(machines := machines, stranded := {});
            Orderly(q') && QueuesOk(q', 0) && |q'.views| == |machines| && AllSettled(q', |machines|) && Evolves(q, q')
  {
    Open(q);
    assert Hosts(machines) == Hosts(q.machines);
    var q' := q.(machines := machines, stranded := {});
    forall s | s in q.all
      ensures Moved(q.machines, q.all[s], q'.all[s])
    {
    }
    CourseOfRequeue(q, q');
    Close(q');
  }

  /** A bound may move past serials that belong to no job that waits. */
  lemma BoundMoves(q: Q, b: nat, c: nat)
    requires QueuesOk(q, b) && b <= c
    requires forall t :: t in q.jobs && t in q.all && b <= t < c ==> !q.all[t].pending
    ensures QueuesOk(q, c)
  {
    forall i | 0 <= i < |q.machines|
      ensures QueueOk(q.machines[i], q.all, q.jobs, c, q.stranded)
    {
      assert QueueOk(q.machines[i], q.all, q.jobs, b, q.stranded);
    }
  }

  /** The job is as before, or has started, or has been cancelled because none of these machines could ever serve it. */
  ghost predicate Moved(machines: seq<MachineRec>, j: Job, j': Job) {
    || Advanced(machines, j, j')
    || (&& j.pending && j' == j.(pending := false)
        && !HasCandidate(machines, j, |machines|) && !Balks(machines, j, |machines|))
  }

  /** Jobs may have started, or been cancelled for want of a machine, and nothing else has happened to them. */
  ghost predicate Evolves(q: Q, q': Q) {
    && Course(q, q')
    && q'.nextSerial == q.nextSerial && q'.postpone == q.postpone && Hosts(q'.machines) == Hosts(q.machines)
    && q'.all.Keys == q.all.Keys
    && (forall s {:trigger Moved(q.machines, q.all[s], q'.all[s])} ::
          s in q.all ==> Moved(q.machines, q.all[s], q'.all[s]))
    && (forall s :: s in q'.jobs ==> s in q.jobs)
    && q.log <= q'.log
  }

  lemma EvolvesTransitive(p: Q, q: Q, r: Q)
    requires Evolves(p, q) && Evolves(q, r)
    ensures Evolves(p, r)
  {
    CourseGoesOn(p, q, r);
    forall s | s in p.all
      ensures Moved(p.machines, p.all[s], r.all[s])
    {
      assert Moved(p.machines, p.all[s], q.all[s]) && Moved(q.machines, q.all[s], r.all[s]);
      CandidatesByHost(p.machines, q.machines, p.all[s]);
    }
  }

  lemma ServedEvolves(q: Q, s: Serial, k: nat, q': Q)
    requires Base(q) && s in q.all && q.all[s].pending && Served(q, s, k, q')
    ensures Evolves(q, q')
  {
    Open(q);
    if q.postpone == 0 && !Balks(q.machines, q.all[s], |q.machines|) {
      RemoveExact(q.jobs, k);
      var q1 := if HasCandidate(q.machines, q.all[s], |q.machines|) then q else Cancel(q, k);
      forall t | t in q.all
        ensures Moved(q.machines, q.all[t], q'.all[t])
      {
        assert Advanced(q1.machines, q1.all[t], q'.all[t]);
      }
      assert q.log <= q1.log;
      if q1 != q {
        CourseOfOne(q, GivenUp(k));
        CourseGoesOn(q, q1, q');
      }
    } else {
      CourseStands(q);
      assert forall t :: t in q.all ==> Moved(q.machines, q.all[t], q'.all[t]);
    }
  }

  lemma AllocatorPositive(q: Q, i: nat)
    requires Base(q) && i < |q.machines|
    ensures q.machines[i].allocator.machine.Positive()
  {
    Open(q);
    assert Sane(Hosts(q.machines)[i], q.views[i]);
  }

  lemma OfferedFurther(before: seq<MachineRec>, after: seq<MachineRec>, j: Job, s: Serial, i: nat)
    requires i < |before| && OfferedTo(before, after, j, s, i)
    ensures after[i] == before[i]
    ensures OfferedTo(before, after[i := Offer(before[i], j, s)], j, s, i + 1)
    ensures HasCandidate(before, j, i + 1) <==> HasCandidate(before, j, i) || Candidate(j, before[i])
    ensures Balks(before, j, i + 1)
       <==> Balks(before, j, i) || (Matches(j, before[i]) && Raises(before[i].allocator.machine, j.demand))
  {
  }

  lemma RaisedNothingQueued(before: seq<MachineRec>, after: seq<MachineRec>, j: Job, s: Serial, i: nat)
    requires i < |before| && OfferedTo(before, after, j, s, i)
    requires Matches(j, before[i]) && Raises(before[i].allocator.machine, j.demand)
    ensures after == before && Balks(before, j, |before|)
  {
    BalksNowhere(before, j, |before|);
    OfferedToNone(before, after, j, s, i);
  }

  /** The queues need not be told of a job that no machine could ever serve. */
  lemma NoOfferNeeded(q: Q, s: Serial)
    requires QueuesOk(q, s) && s in q.all && !HasCandidate(q.machines, q.all[s], |q.machines|)
    ensures QueuesOk(q, s + 1) && Progress(q, q)
  {
    forall i | 0 <= i < |q.machines|
      ensures QueueOk(q.machines[i], q.all, q.jobs, s + 1, q.stranded)
    {
      assert QueueOk(q.machines[i], q.all, q.jobs, s, q.stranded);
    }
    ProgressReflexive(q);
  }

  /** If no machine so far is a candidate, nothing has been queued. */
  lemma OfferedToNone(before: seq<MachineRec>, after: seq<MachineRec>, j: Job, s: Serial, i: nat)
    requires OfferedTo(before, after, j, s, i) && !HasCandidate(before, j, |before|)
    ensures after == before
  {
    forall k | 0 <= k < |after|
      ensures after[k] == before[k]
    {
      if k < i {
        assert after[k] == Offer(before[k], j, s);
      }
    }
  }

  lemma OfferedNowhere(before: seq<MachineRec>, j: Job, s: Serial)
    ensures OfferedTo(before, before, j, s, 0) && !HasCandidate(before, j, 0) && !Balks(before, j, 0)
  {
  }

  /** Cancelling, and then processing twice, after an offer nobody took. */
  lemma ServedByCancel(q: Q, s: Serial, k: nat, q1: Q, q2: Q)
    requires Base(q) && q.postpone == 0 && k < |q.jobs| && q.jobs[k] == s && s in q.all && q.all[s].pending
    requires !HasCandidate(q.machines, q.all[s], |q.machines|) && !Balks(q.machines, q.all[s], |q.machines|)
    requires Processed(Cancel(q, k), q1) && Processed(q1, q2)
    ensures Served(q, s, k, q2)
  {
    ProgressTransitive(Cancel(q, k), q1, q2);
  }

  lemma ServedByOffer(q: Q, s: Serial, k: nat, q1: Q, q2: Q)
    requires q.postpone == 0 && k < |q.jobs| && q.jobs[k] == s && s in q.all
    requires HasCandidate(q.machines, q.all[s], |q.machines|) && !Balks(q.machines, q.all[s], |q.machines|)
    requires Progress(q, q1) && Processed(q1, q2)
    ensures Served(q, s, k, q2)
  {
    ProgressTransitive(q, q1, q2);
  }

  /** The first serial that the rebuilding, having dealt with i entries of the snapshot, has not covered. */
  function Covered(snapshot: seq<Serial>, i: nat): nat
    requires i <= |snapshot|
  {
    if i == 0 then 0 else snapshot[i - 1] + 1
  }

  /** Entries between those dealt with and the next one do not exist. */
  lemma CoverNext(q: Q, snapshot: seq<Serial>, i: nat)
    requires Increasing(snapshot) && i < |snapshot| && QueuesOk(q, Covered(snapshot, i))
    requires forall t :: t in q.jobs ==> t in snapshot
    ensures QueuesOk(q, snapshot[i])
    ensures snapshot[i] in q.all && !q.all[snapshot[i]].pending ==> QueuesOk(q, snapshot[i] + 1)
  {
    var b := Covered(snapshot, i);
    forall t | t in q.jobs
      ensures !(b <= t < snapshot[i])
    {
      var k :| 0 <= k < |snapshot| && snapshot[k] == t;
    }
    BoundMoves(q, b, snapshot[i]);
    if snapshot[i] in q.all && !q.all[snapshot[i]].pending {
      BoundMoves(q, snapshot[i], snapshot[i] + 1);
    }
  }

  lemma CoverEnd(q: Q, snapshot: seq<Serial>)
    requires Base(q) && Increasing(snapshot) && QueuesOk(q, Covered(snapshot, |snapshot|))
    requires forall t :: t in q.jobs ==> t in snapshot
    requires forall t :: t in snapshot ==> t < q.nextSerial
    ensures QueuesOk(q, q.nextSerial)
  {
    Open(q);
    var b := Covered(snapshot, |snapshot|);
    assert |snapshot| > 0 ==> snapshot[|snapshot| - 1] in snapshot;
    forall t | t in q.jobs
      ensures t < b
    {
      var k :| 0 <= k < |snapshot| && snapshot[k] == t;
    }
    BoundMoves(q, b, q.nextSerial);
  }

  lemma EvolvesReflexive(q: Q)
    ensures Evolves(q, q)
  {
    CourseStands(q);
  }

  /** The jobs in the snapshot are still known, and those that wait are still in the dictionary. */
  lemma SnapshotKnown(q: Q, q': Q, s: Serial)
    requires Base(q) && Base(q') && Evolves(q, q') && s in q.jobs
    ensures s in q'.all && (q'.all[s].pending ==> s in q'.jobs)
  {
    Open(q);
    Open(q');
  }

  /** The aspects of a rebuilding that is under way. */
  datatype Stage = Kept | Queued | Quiet

  ghost predicate Shows(q0: Q, q: Q, i: nat, stage: Stage) {
    match stage
    case Kept => Base(q0) && Orderly(q) && Evolves(q0, q)
    case Queued => i <= |q0.jobs| && q.postpone == 0 && q.stranded == {} && QueuesOk(q, Covered(q0.jobs, i))
    case Quiet => |q.views| == |q.machines| && AllSettled(q, |q.machines|)
  }

  /** The state of the rebuilding once i entries of the snapshot have been dealt with. */
  ghost predicate Rebuilding(q0: Q, q: Q, i: nat) {
    i <= |q0.jobs| && q.postpone == 0 && forall stage {:trigger Shows(q0, q, i, stage)} :: Shows(q0, q, i, stage)
  }

  /** The same, spelled out. */
  ghost predicate Underway(q0: Q, q: Q, i: nat) {
    && i <= |q0.jobs| && Base(q0) && Orderly(q) && Evolves(q0, q) && q.postpone == 0 && q.stranded == {}
    && QueuesOk(q, Covered(q0.jobs, i))
    && |q.views| == |q.machines| && AllSettled(q, |q.machines|)
  }

  lemma OpenRebuilding(q0: Q, q: Q, i: nat)
    requires Rebuilding(q0, q, i)
    ensures Underway(q0, q, i)
  {
    assert Shows(q0, q, i, Kept) && Shows(q0, q, i, Queued) && Shows(q0, q, i, Quiet);
  }

  lemma CloseRebuilding(q0: Q, q: Q, i: nat)
    requires Underway(q0, q, i)
    ensures Rebuilding(q0, q, i)
  {
  }

  lemma CreateKeepsQueues(q: Q, j: Job)
    requires Base(q) && Tidy(q, q.nextSerial)
    ensures Tidy(Create(q, j), q.nextSerial)
  {
    Open(q);
    if q.postpone == 0 {
      var q' := Create(q, j);
      assert q.nextSerial !in q.all;
      forall i | 0 <= i < |q.machines|
        ensures QueueOk(q.machines[i], q'.all, q'.jobs, q.nextSerial, q'.stranded)
      {
        assert QueueOk(q.machines[i], q.all, q.jobs, q.nextSerial, q.stranded);
        assert forall s :: s in q'.jobs <==> s in q.jobs || s == q.nextSerial;
      }
    }
  }

  lemma RebuildNext(q0: Q, q: Q, i: nat)
    requires i < |q0.jobs| && Rebuilding(q0, q, i)
    ensures q0.jobs[i] in q.all && (q.all[q0.jobs[i]].pending ==> q0.jobs[i] in q.jobs)
    ensures Orderly(q) && Tidy(q, q0.jobs[i])
    ensures !q.all[q0.jobs[i]].pending ==> Rebuilding(q0, q, i + 1)
  {
    OpenRebuilding(q0, q, i);
    SnapshotKnown(q0, q, q0.jobs[i]);
    Open(q0);
    CoverNext(q, q0.jobs, i);
    if !q.all[q0.jobs[i]].pending {
      CloseRebuilding(q0, q, i + 1);
    }
  }

  /** After an entry has been offered again, all machines are settled again. */
  lemma ServedSettles(q: Q, s: Serial, k: nat, q': Q)
    requires Served(q, s, k, q') && q.postpone == 0 && q.stranded == {}
    requires |q.views| == |q.machines| && AllSettled(q, |q.machines|)
    ensures q'.postpone == 0 && q'.stranded == {} && |q'.views| == |q'.machines| && AllSettled(q', |q'.machines|)
  {
  }

  lemma RebuildEvolves(q0: Q, q: Q, i: nat, k: nat, q': Q)
    requires i < |q0.jobs| && Rebuilding(q0, q, i)
    requires q0.jobs[i] in q.all && q.all[q0.jobs[i]].pending && Served(q, q0.jobs[i], k, q')
    ensures Base(q0) && Evolves(q0, q')
  {
    OpenRebuilding(q0, q, i);
    ServedEvolves(q, q0.jobs[i], k, q');
    EvolvesTransitive(q0, q, q');
  }

  lemma RebuildServed(q0: Q, q: Q, i: nat, k: nat, q': Q)
    requires i < |q0.jobs| && Rebuilding(q0, q, i) && Orderly(q') && Tidy(q', q0.jobs[i] + 1)
    requires q0.jobs[i] in q.all && q.all[q0.jobs[i]].pending && Served(q, q0.jobs[i], k, q')
    ensures Rebuilding(q0, q', i + 1)
  {
    RebuildEvolves(q0, q, i, k, q');
    assert Shows(q0, q, i, Queued) && Shows(q0, q, i, Quiet);
    ServedSettles(q, q0.jobs[i], k, q');
    assert Shows(q0, q', i + 1, Kept);
  }

  lemma Rebuilt(q0: Q, q: Q)
    requires Rebuilding(q0, q, |q0.jobs|)
    ensures Orderly(q) && Tidy(q, q.nextSerial) && Evolves(q0, q) && q.stranded == {}
    ensures |q.views| == |q.machines| && AllSettled(q, |q.machines|)
  {
    OpenRebuilding(q0, q, |q0.jobs|);
    Open(q0);
    CoverEnd(q, q0.jobs);
  }

  /** The job waits, and no machine could ever serve it. */
  ghost predicate Unservable(q: Q, s: Serial) {
    s in q.all && q.all[s].pending && !HasCandidate(q.machines, q.all[s], |q.machines|)
  }

  /**
   * Rebuilding the queues from q breaks off at entry k: a machine raises an error about the job, or the job is
   * cancelled, which changes the dictionary under the loop that has more of it to visit.
   */
  ghost predicate Interrupts(q: Q, k: nat)
    requires k < |q.jobs|
  {
    Stops(q, q.jobs[k], k < |q.jobs| - 1)
  }

  /** Offering job s breaks the rebuilding off; more says whether the loop has others to visit. */
  ghost predicate Stops(q: Q, s: Serial, more: bool) {
    Unservable(q, s) && (Balks(q.machines, q.all[s], |q.machines|) || more)
  }

  /** Rebuilding the queues from q breaks off somewhere. */
  ghost predicate BreaksOff(q: Q) {
    exists k {:trigger Interrupts(q, k)} :: 0 <= k < |q.jobs| && Interrupts(q, k)
  }

  /** If no machine could serve the job of entry k, it still waits. */
  ghost predicate StillWaits(q0: Q, q: Q, k: nat)
    requires k < |q0.jobs|
  {
    Unservable(q0, q0.jobs[k]) ==> q0.jobs[k] in q.all && q.all[q0.jobs[k]].pending
  }

  /** The jobs no machine could serve still wait, from entry i on, and no entry before it broke the rebuilding off. */
  ghost predicate Patient(q0: Q, q: Q, i: nat)
    requires i <= |q0.jobs|
  {
    && (forall k {:trigger StillWaits(q0, q, k)} :: i <= k < |q0.jobs| ==> StillWaits(q0, q, k))
    && (forall k {:trigger Interrupts(q0, k)} :: 0 <= k < i ==> !Interrupts(q0, k))
  }

  /** Whether the next entry breaks the rebuilding off can be told when it is reached as well as at the start. */
  lemma InterruptsNow(q0: Q, q: Q, i: nat)
    requires i < |q0.jobs| && Evolves(q0, q) && Patient(q0, q, i) && q0.jobs[i] in q0.all
    ensures var s := q0.jobs[i];
            && s in q.all && (q.all[s].pending ==> q.all[s] == q0.all[s])
            && (Interrupts(q0, i) <==> Stops(q, s, i < |q0.jobs| - 1))
  {
    var s := q0.jobs[i];
    assert StillWaits(q0, q, i);
    assert Moved(q0.machines, q0.all[s], q.all[s]);
    CandidatesByHost(q0.machines, q.machines, q0.all[s]);
  }

  lemma PatienceLasts(q0: Q, q: Q, i: nat, q': Q)
    requires i < |q0.jobs| && Evolves(q0, q) && Patient(q0, q, i) && !Interrupts(q0, i)
    requires forall t :: t in q.all && t != q0.jobs[i] ==> t in q'.all && Advanced(q.machines, q.all[t], q'.all[t])
    requires Increasing(q0.jobs)
    ensures Patient(q0, q', i + 1)
  {
    forall k | i + 1 <= k < |q0.jobs|
      ensures StillWaits(q0, q', k)
    {
      var t := q0.jobs[k];
      if Unservable(q0, t) {
        assert StillWaits(q0, q, k) && t != q0.jobs[i];
        assert Moved(q0.machines, q0.all[t], q.all[t]);
        CandidatesByHost(q0.machines, q.machines, q0.all[t]);
      }
    }
  }

  lemma ServedOthers(q: Q, s: Serial, k: nat, q': Q)
    requires Served(q, s, k, q')
    ensures forall t :: t in q.all && t != s ==> t in q'.all && Advanced(q.machines, q.all[t], q'.all[t])
  {
    if q.postpone == 0 && !Balks(q.machines, q.all[s], |q.machines|) {
      var q1 := if HasCandidate(q.machines, q.all[s], |q.machines|) then q else Cancel(q, k);
      forall t | t in q.all && t != s
        ensures t in q'.all && Advanced(q.machines, q.all[t], q'.all[t])
      {
        assert Advanced(q1.machines, q1.all[t], q'.all[t]);
      }
    }
  }

  lemma PatienceStarts(q0: Q, q: Q)
    requires Base(q0) && q.all == q0.all
    ensures Patient(q0, q, 0)
  {
    Open(q0);
  }

  /** A rebuilding that has come to the end was not broken off. */
  lemma NeverBrokenOff(q0: Q, q: Q)
    requires Patient(q0, q, |q0.jobs|)
    ensures !BreaksOff(q0)
  {
  }

  /** The jobs that wait and were created after s: those that a rebuilding that breaks off at s leaves out. */
  function LeftOut(q: Q, s: Serial): set<Serial> {
    set t | t in q.jobs && t in q.all && q.all[t].pending && s < t
  }

  /** The queues after a rebuilding that broke off at entry i: the jobs that wait behind it are stranded. */
  ghost predicate BrokenOffAt(q0: Q, q: Q, i: nat) {
    && i < |q0.jobs| && Interrupts(q0, i) && (forall k {:trigger Interrupts(q0, k)} :: 0 <= k < i ==> !Interrupts(q0, k))
    && Orderly(q) && Evolves(q0, q) && QueuesOk(q, q.nextSerial) && q.stranded == LeftOut(q, q0.jobs[i])
  }

  /** With the jobs behind the bound stranded, the queues miss nobody else. */
  lemma StrandedKeeps(q0: Q, q: Q, i: nat)
    requires i < |q0.jobs| && Rebuilding(q0, q, i + 1)
    ensures var q' := q.(stranded := LeftOut(q, q0.jobs[i]));
            Orderly(q') && QueuesOk(q', q.nextSerial) && Evolves(q0, q')
  {
    OpenRebuilding(q0, q, i + 1);
    Open(q);
    Open(q0);
    var s := q0.jobs[i];
    assert s in q0.jobs && s < q.nextSerial;
    var q' := q.(stranded := LeftOut(q, s));
    forall k | 0 <= k < |q.machines|
      ensures QueueOk(q.machines[k], q.all, q.jobs, q.nextSerial, q'.stranded)
    {
      assert QueueOk(q.machines[k], q.all, q.jobs, s + 1, {});
    }
    Close(q');
    CourseOfRequeue(q, q');
    CourseGoesOn(q0, q, q');
    assert forall t :: t in q0.all ==> Moved(q0.machines, q0.all[t], q'.all[t]);
  }

  lemma BalksMeansUnservable(q: Q, s: Serial)
    requires s in q.all && q.all[s].pending
    ensures Balks(q.machines, q.all[s], |q.machines|) ==> Unservable(q, s)
  {
  }

  /** What the next entry means for the rebuilding. */
  lemma RebuildInterrupts(q0: Q, q: Q, i: nat)
    requires i < |q0.jobs| && Rebuilding(q0, q, i) && Patient(q0, q, i)
    ensures var s := q0.jobs[i];
            && s in q.all
            && (Interrupts(q0, i) <==> Stops(q, s, i < |q0.jobs| - 1))
  {
    OpenRebuilding(q0, q, i);
    Open(q0);
    InterruptsNow(q0, q, i);
  }

  /** An entry that no longer waits is passed over. */
  lemma RebuildSkips(q0: Q, q: Q, i: nat)
    requires i < |q0.jobs| && Rebuilding(q0, q, i) && Patient(q0, q, i) && !Interrupts(q0, i)
    ensures Patient(q0, q, i + 1)
  {
    OpenRebuilding(q0, q, i);
    Open(q0);
    PatienceLasts(q0, q, i, q);
  }

  /** After an entry has been offered again, the rebuilding goes on unless the entry breaks it off. */
  lemma RebuildGoesOn(q0: Q, q: Q, i: nat, k: nat, q': Q)
    requires i < |q0.jobs| && Rebuilding(q0, q, i) && Patient(q0, q, i) && Orderly(q') && Tidy(q', q0.jobs[i] + 1)
    requires q0.jobs[i] in q.all && q.all[q0.jobs[i]].pending && Served(q, q0.jobs[i], k, q')
    ensures Rebuilding(q0, q', i + 1)
    ensures !Interrupts(q0, i) ==> Patient(q0, q', i + 1)
  {
    RebuildServed(q0, q, i, k, q');
    OpenRebuilding(q0, q, i);
    Open(q0);
    ServedOthers(q, q0.jobs[i], k, q');
    if !Interrupts(q0, i) {
      PatienceLasts(q0, q, i, q');
    }
  }

  lemma SameInterruptions(q: Q, q': Q)
    requires q'.machines == q.machines && q'.all == q.all && q'.jobs == q.jobs
    ensures BreaksOff(q) <==> BreaksOff(q')
  {
    forall k | 0 <= k < |q.jobs|
      ensures Interrupts(q, k) <==> Interrupts(q', k)
    {
    }
  }

  /** A machine with a new allocator has joined, and nothing else has changed. */
  ghost predicate MachineJoined(q: Q, q': Q, name: string, machine: Machine, tags: set<string>, secondsBeforeFree: int) {
    && q'.machines != [] && q'.machines[..|q'.machines| - 1] == q.machines
    && var a := q'.machines[|q'.machines| - 1].allocator;
       && a.machine == machine && a.secondsBeforeFree == secondsBeforeFree
       && q' == AddMachine(q, MachineRec(name, tags, a, []), Initial(machine, 1))
  }

  /** Suspending or resuming queue management touches nothing else. */
  lemma PostponeKeepsBase(q: Q, postpone: nat)
    requires Base(q)
    ensures Base(q.(postpone := postpone))
  {
    Open(q);
    Close(q.(postpone := postpone));
  }

  // ----- checking the quarantines

  function CheckedView(q: Q, i: nat, now: int): State
    requires i < |q.machines| && i < |q.views|
  {
    var a := q.machines[i].allocator;
    AllocatorModel.CheckFree(a.machine, a.secondsBeforeFree, q.views[i], now)
  }

  /** The allocators' states once the first n of them have been checked. */
  ghost predicate CheckedTo(q: Q, views: seq<State>, n: nat, now: int) {
    && n <= |q.machines| == |q.views| == |views|
    && (forall i {:trigger views[i]} :: 0 <= i < n ==> views[i] == CheckedView(q, i, now))
    && (forall i {:trigger views[i]} :: n <= i < |views| ==> views[i] == q.views[i])
  }

  /** A check that frees nothing leaves the allocator as it was. */
  lemma CheckFreeQuiet(m: Machine, secondsBeforeFree: int, s: State, now: int)
    requires Inv(m, s)
    ensures |CheckFree(m, secondsBeforeFree, s, now).toFree| <= |s.toFree|
    ensures |CheckFree(m, secondsBeforeFree, s, now).toFree| == |s.toFree| ==> CheckFree(m, secondsBeforeFree, s, now) == s
    ensures Inv(m, CheckFree(m, secondsBeforeFree, s, now))
    ensures CheckFree(m, secondsBeforeFree, s, now).live == s.live
  {
    var n := CheckFreeDrops(m, secondsBeforeFree, s, now);
    CheckFreeKeeps(m, secondsBeforeFree, s, now);
  }

  lemma CheckStarts(q: Q, now: int)
    requires |q.views| == |q.machines|
    ensures CheckedTo(q, q.views, 0, now)
  {
  }

  /** Checking one more allocator. */
  lemma CheckGoesOn(q: Q, views: seq<State>, i: nat, now: int)
    requires i < |q.machines| && Base(q.(views := views)) && CheckedTo(q, views, i, now)
    ensures Inv(q.machines[i].allocator.machine, q.views[i]) && views[i] == q.views[i]
    ensures CheckedTo(q, views[i := CheckedView(q, i, now)], i + 1, now)
    ensures Base(q.(views := views[i := CheckedView(q, i, now)]))
    ensures |CheckedView(q, i, now).toFree| == |q.views[i].toFree| ==> CheckedView(q, i, now) == q.views[i]
    ensures |CheckedView(q, i, now).toFree| <= |q.views[i].toFree|
  {
    var q1 := q.(views := views);
    Open(q1);
    var a := q.machines[i].allocator;
    assert Sane(Hosts(q.machines)[i], views[i]);
    CheckFreeQuiet(a.machine, a.secondsBeforeFree, views[i], now);
    QuietKeepsBase(q1, i, CheckedView(q, i, now));
  }

  lemma CheckKeepsTidy(q: Q, views: seq<State>, bound: nat)
    requires Tidy(q, bound)
    ensures Tidy(q.(views := views), bound)
  {
    if q.postpone == 0 {
      SameQueues(q, q.(views := views), bound);
    }
  }

  // ----- removing a machine

  /** The calls made while the jobs on a machine are evicted: each is told that it is freed. */
  ghost predicate Farewells(q: Q, name: string, log: seq<Callback>) {
    && q.log <= log
    && forall k :: |q.log| <= k < |log| ==>
         log[k].OnFree? && log[k].serial in q.jobs && log[k].serial in q.all && RunsOn(q.all[log[k].serial], name)
  }

  /** The first n jobs have been looked at, and those on the named machine have given up their boards. */
  ghost predicate Evicted(q: Q, q': Q, name: string, n: nat) {
    && q' == q.(jobs := q'.jobs, views := q'.views, log := q'.log) && n <= |q.jobs|
    && |q'.views| == |q.machines| == |q.views|
    && (forall s :: s in q'.jobs ==> s in q.jobs)
    && (forall k :: 0 <= k < |q.jobs| && q.jobs[k] in q.all ==>
          (q.jobs[k] in q'.jobs <==> !(k < n && q.all[q.jobs[k]].machine == Some(name))))
    && (forall i :: 0 <= i < |q.machines| && q.machines[i].name != name ==> q'.views[i] == q.views[i])
    && Farewells(q, name, q'.log)
    && forall k {:trigger Dismissed(q, q'.log, name, k)} :: 0 <= k < n ==> Dismissed(q, q'.log, name, k)
  }

  /** If the k-th job is on the machine, it has been told since that it is freed. */
  ghost predicate Dismissed(q: Q, log: seq<Callback>, name: string, k: nat)
    requires k < |q.jobs|
  {
    q.jobs[k] in q.all && q.all[q.jobs[k]].machine == Some(name) ==>
      exists l :: |q.log| <= l < |log| && log[l] == OnFree(q.jobs[k])
  }

  lemma EvictionStarts(q: Q, name: string)
    requires Base(q)
    ensures Evicted(q, q, name, 0)
  {
  }

  /** A job that is not on the machine stays. */
  lemma EvictionSkips(q: Q, q1: Q, name: string, n: nat)
    requires Base(q) && Evicted(q, q1, name, n) && n < |q.jobs| && q.jobs[n] in q.all
    requires q.all[q.jobs[n]].machine != Some(name)
    ensures Evicted(q, q1, name, n + 1)
  {
  }

  /** Only job s has this identifier. */
  ghost predicate OnlyJob(q: Q, s: Serial, id: int) {
    forall l {:trigger IsJob(q, l, id)} :: IsJob(q, l, id) ==> q.jobs[l] == s
  }

  lemma OnlyJobAt(q: Q, k: int, s: Serial, id: int)
    requires OnlyJob(q, s, id) && IsJob(q, k, id)
    ensures q.jobs[k] == s
  {
  }

  lemma StillOnlyJob(q: Q, s: Serial, id: int)
    requires OnlyJob(q, s, id) && HasJob(q, id)
    ensures OnlyJob(AnnounceFree(q, s), s, id) && HasJob(AnnounceFree(q, s), id)
  {
    var q' := AnnounceFree(q, s);
    forall l | IsJob(q', l, id)
      ensures q'.jobs[l] == s
    {
      assert IsJob(q, l, id);
    }
    var k :| 0 <= k < |q.jobs| && q.jobs[k] in q.all && q.all[q.jobs[k]].id == id;
    assert q'.jobs[k] in q'.all && q'.all[q'.jobs[k]].id == id;
  }

  /** The next job on the machine is still there, and is allocated. */
  lemma EvictionFinds(q: Q, q1: Q, name: string, n: nat)
    requires Base(q) && Base(q1) && Evicted(q, q1, name, n) && n < |q.jobs| && q.jobs[n] in q.all
    requires q.all[q.jobs[n]].machine == Some(name)
    ensures q.jobs[n] in q1.jobs && !q.all[q.jobs[n]].pending
    ensures HasJob(q1, q.all[q.jobs[n]].id)
    ensures OnlyJob(q1, q.jobs[n], q.all[q.jobs[n]].id)
  {
    Open(q);
    Open(q1);
    var l := PositionOf(q1, q.jobs[n]);
    assert IsJob(q1, l, q.all[q.jobs[n]].id);
  }

  lemma EvictionTakes(q: Q, q1: Q, name: string, n: nat, k: nat, i: nat, now: int)
    requires Base(q) && Base(q1) && Evicted(q, q1, name, n) && n < |q.jobs| && q.jobs[n] in q.all
    requires q.all[q.jobs[n]].machine == Some(name) && !q.all[q.jobs[n]].pending
    requires k < |q1.jobs| && q1.jobs[k] == q.jobs[n]
    requires Freeable(AnnounceFree(q1, q1.jobs[k]), k, i)
    ensures Evicted(q, Freed(AnnounceFree(q1, q1.jobs[k]), k, i, now), name, n + 1)
  {
    Open(q);
    Open(q1);
    RemoveExact(q1.jobs, k);
    DismissedOneMore(q, q1.log, name, n);
  }

  lemma DismissedOneMore(q: Q, log: seq<Callback>, name: string, n: nat)
    requires n < |q.jobs| && |q.log| <= |log| && forall k :: 0 <= k < n ==> Dismissed(q, log, name, k)
    ensures forall k {:trigger Dismissed(q, log + [OnFree(q.jobs[n])], name, k)} ::
              0 <= k < n + 1 ==> Dismissed(q, log + [OnFree(q.jobs[n])], name, k)
  {
    var log' := log + [OnFree(q.jobs[n])];
    forall k | 0 <= k < n + 1
      ensures Dismissed(q, log', name, k)
    {
      if k < n {
        assert Dismissed(q, log, name, k);
        if q.jobs[k] in q.all && q.all[q.jobs[k]].machine == Some(name) {
          var l :| |q.log| <= l < |log| && log[l] == OnFree(q.jobs[k]);
          assert log'[l] == OnFree(q.jobs[k]);
        }
      } else {
        assert log'[|log|] == OnFree(q.jobs[n]);
      }
    }
  }

  /** With its jobs gone, a machine can be removed. */
  lemma EvictionEnds(q: Q, q1: Q, i: nat)
    requires Base(q) && Base(q1) && i < |q.machines| && Evicted(q, q1, q.machines[i].name, |q.jobs|)
    ensures Base(RemoveMachine(q1, i))
    ensures forall s :: s in q1.jobs <==> s in q.jobs && s in q.all && !RunsOn(q.all[s], q.machines[i].name)
  {
    Open(q);
    var name := q.machines[i].name;
    forall s | s in q.jobs
      ensures s in q.all && (s in q1.jobs <==> !RunsOn(q.all[s], name))
    {
      var k :| 0 <= k < |q.jobs| && q.jobs[k] == s;
    }
    RemoveMachineKeepsBase(q1, i);
  }

  /** No machine has this name, and no job still known refers to it. */
  ghost predicate Forgotten(q: Q, name: string) {
    && (forall k :: 0 <= k < |q.machines| ==> q.machines[k].name != name)
    && (forall s :: s in q.jobs ==> s in q.all && q.all[s].machine != Some(name))
  }

  /** No job still known refers to a machine that is not there. */
  lemma NoGhostMachines(q: Q, name: string)
    requires Base(q) && forall i :: 0 <= i < |q.machines| ==> q.machines[i].name != name
    ensures Forgotten(q, name)
  {
    Open(q);
    forall s | s in q.jobs
      ensures s in q.all && q.all[s].machine != Some(name)
    {
      if !q.all[s].pending {
        assert Placed(Hosts(q.machines), q.all[s]);
      }
    }
  }

  /**
   * What removing machine i from q comes to: the jobs on it are evicted, it goes, and the queues are rebuilt unless
   * queue management is suspended. The rebuilding may break off, which is when an error is raised.
   */
  ghost predicate Removed(q: Q, i: nat, evicted: Q, q': Q, raised: bool) {
    && i < |q.machines| && i < |evicted.machines| == |evicted.views|
    && Evicted(q.(postpone := q.postpone + 1), evicted, q.machines[i].name, |q.jobs|)
    && var gone := RemoveMachine(evicted, i);
       && Evolves(gone.(postpone := q.postpone), q') && Forgotten(q', q.machines[i].name)
       && (raised <==> q.postpone == 0 && BreaksOff(gone))
  }

  lemma NameGone(q: Q, i: nat)
    requires Base(q) && i < |q.machines|
    ensures forall k :: 0 <= k < |RemoveMachine(q, i).machines| ==> RemoveMachine(q, i).machines[k].name != q.machines[i].name
  {
    Open(q);
    var hosts := Hosts(q.machines);
    forall k | 0 <= k < |RemoveMachine(q, i).machines|
      ensures RemoveMachine(q, i).machines[k].name != q.machines[i].name
    {
      assert RemoveMachine(q, i).machines[k] == q.machines[Before(k, i)];
      assert hosts[Before(k, i)].name != hosts[i].name;
    }
  }

  lemma SameNames(machines: seq<MachineRec>, machines': seq<MachineRec>, name: string)
    requires Hosts(machines) == Hosts(machines')
    requires forall k :: 0 <= k < |machines| ==> machines[k].name != name
    ensures forall k :: 0 <= k < |machines'| ==> machines'[k].name != name
  {
    assert |machines| == |Hosts(machines)| == |machines'|;
    forall k | 0 <= k < |machines'|
      ensures machines'[k].name != name
    {
      assert Hosts(machines)[k].name == Hosts(machines')[k].name;
    }
  }
}
