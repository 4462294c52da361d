/**
 * The life-cycle of the controller's jobs: allocation, power commands sent frame by frame to the hardware,
 * destruction, and the return of the boards once all commands have been carried out. Each function is one
 * action taken under the controller's lock; commands complete at any later time, in order for each frame.
 */
module ControllerModel {
  import opened Wrappers
  import opened Coordinates
  import opened CandidateFilter

  type Frame = (int, int)

  /** Where a board really is. */
  datatype Location = Location(cabinet: int, frame: int, board: int) {
    function Rack(): Frame {
      (cabinet, frame)
    }
  }

  type Layout = map<Board, Location>

  /** The machines by name; they stay as they are. */
  type Site = map<string, Layout>

  ghost predicate SiteOk(site: Site) {
    forall name, a, b {:trigger site[name][a], site[name][b]} ::
      name in site && a in site[name] && b in site[name] && a != b ==> site[name][a] != site[name][b]
  }

  /** What a job has been given: boards of a machine, and the links that leave them. */
  datatype Grant = Grant(machine: string, boards: set<Board>, periphery: set<Port>)

  predicate GrantOk(site: Site, g: Grant) {
    && g.machine in site && g.boards != {} && g.boards <= site[g.machine].Keys
    && forall p :: p in g.periphery ==> p.0 in g.boards
  }

  predicate Apart(g: Grant, h: Grant) {
    g.machine == h.machine ==> g.boards !! h.boards
  }

  datatype JobState = Queued | Power | Ready

  /** A job object: requestsUntilReady counts the commands sent and not yet completed. */
  datatype JobRecord = JobRecord(state: JobState, power: Option<bool>, grant: Option<Grant>, requestsUntilReady: int)

  /** The commands for one frame: board positions to be powered on or off, and links to be switched. */
  datatype Request = Request(
    job: int, machine: string, frame: Frame, power: bool, boards: set<int>, links: set<(int, Link, bool)>)

  /**
   * records holds every job object ever made; live the jobs not yet destroyed; retired the remembered destroyed
   * ones, oldest first; queue the jobs the job queue still knows, and what it has given them; bmp the commands
   * queued or being executed, by ticket in the order of sending. The rest is history and hardware: destroyed lists
   * all jobs ever destroyed, oldest first; done says what was last completed for each job and frame, and whether it
   * succeeded; lit holds the boards whose power state is known, which a failed command makes unknown; wired holds the
   * links that are known to be enabled or disabled, which any command for their board makes unknown unless it succeeds
   * and is about them.
   */
  datatype C = C(
    nextId: int,
    records: map<int, JobRecord>,
    live: set<int>,
    retired: seq<int>,
    maxRetired: nat,
    queue: map<int, Option<Grant>>,
    bmp: map<nat, Request>,
    nextTicket: nat,
    destroyed: seq<int>,
    done: Reports,
    lit: Lights,
    wired: Wires)

  /** The end of a command: what it was for, and whether it succeeded. */
  datatype Report = Report(power: bool, success: bool)

  function Initial(nextId: int, maxRetired: nat): C {
    C(nextId, map[], {}, [], maxRetired, map[], map[], 0, [], map[], map[], map[])
  }

  // ----- commands, frame by frame

  function Frames(layout: Layout, boards: set<Board>): set<Frame>
    requires boards <= layout.Keys
  {
    set b | b in boards :: layout[b].Rack()
  }

  function BoardsIn(layout: Layout, boards: set<Board>, f: Frame): set<int>
    requires boards <= layout.Keys
  {
    set b | b in boards && layout[b].Rack() == f :: layout[b].board
  }

  function LinksIn(layout: Layout, periphery: set<Port>, enable: Option<bool>, f: Frame): set<(int, Link, bool)>
    requires forall p :: p in periphery ==> p.0 in layout
  {
    if enable.None? then {}
    else set p | p in periphery && layout[p.0].Rack() == f :: (layout[p.0].board, p.1, enable.value)
  }

  function FramesOf(site: Site, g: Grant): set<Frame>
    requires GrantOk(site, g)
  {
    Frames(site[g.machine], g.boards)
  }

  function RequestFor(site: Site, id: int, g: Grant, f: Frame, power: bool, enable: Option<bool>): Request
    requires GrantOk(site, g)
  {
    var layout := site[g.machine];
    Request(id, g.machine, f, power, BoardsIn(layout, g.boards, f), LinksIn(layout, g.periphery, enable, f))
  }

  /** The frames in some order, each once. */
  predicate Ordering(order: seq<Frame>, frames: set<Frame>) {
    && (forall i, j :: 0 <= i < j < |order| ==> order[i] != order[j])
    && (forall f :: f in order ==> f in frames) && forall f :: f in frames ==> f in order
  }

  function Batch(site: Site, id: int, g: Grant, order: seq<Frame>, power: bool, enable: Option<bool>): seq<Request>
    requires GrantOk(site, g)
  {
    seq(|order|, k requires 0 <= k < |order| => RequestFor(site, id, g, order[k], power, enable))
  }

  /** The boards a request acts on. */
  function Targets(site: Site, r: Request): set<Board> {
    if r.machine !in site then {}
    else
      var layout := site[r.machine];
      set b | b in layout && layout[b].Rack() == r.frame && layout[b].board in r.boards
  }

  // ----- actions

  /** Send requests with consecutive tickets. */
  function Sent(bmp: map<nat, Request>, n: nat, reqs: seq<Request>): (all: map<nat, Request>)
    ensures (forall t :: t in bmp ==> t < n) ==> forall t :: t in bmp ==> t in all && all[t] == bmp[t]
    decreases |reqs|
  {
    if reqs == [] then bmp else Sent(bmp[n := reqs[0]], n + 1, reqs[1..])
  }

  /** Switch a job's boards on or off: one request for every frame. */
  function SetPower(site: Site, c: C, id: int, power: bool, enable: Option<bool>, order: seq<Frame>): C
    requires id in c.records && c.records[id].grant.Some? && GrantOk(site, c.records[id].grant.value)
  {
    var rec := c.records[id];
    var reqs := Batch(site, id, rec.grant.value, order, power, enable);
    c.(bmp := Sent(c.bmp, c.nextTicket, reqs), nextTicket := c.nextTicket + |reqs|,
       records := c.records[id := rec.(state := Power, power := Some(power),
         requestsUntilReady := rec.requestsUntilReady + |reqs|)])
  }

  function Create(c: C): C {
    c.(nextId := c.nextId + 1, records := c.records[c.nextId := JobRecord(Queued, None, None, 0)],
       live := c.live + {c.nextId}, queue := c.queue[c.nextId := None])
  }

  /** The job queue raises an error without entering the job, which the controller has recorded by then. */
  function CreateRefused(c: C): C {
    Create(c).(queue := c.queue)
  }

  /** The controller takes the job to be live, but the job queue does not know it. */
  predicate Refused(c: C, id: int) {
    id in c.live && id !in c.queue
  }

  /** The job queue has given boards to a job: they are powered on with the links around them disabled. */
  function Allocate(site: Site, c: C, id: int, g: Grant, order: seq<Frame>): C
    requires id in c.records && GrantOk(site, g)
  {
    SetPower(site,
      c.(queue := c.queue[id := Some(g)], records := c.records[id := c.records[id].(grant := Some(g))]),
      id, true, Some(false), order)
  }

  function Evict(retired: seq<int>, most: nat): seq<int> {
    if |retired| > most then retired[1..] else retired
  }

  function Retire(c: C, id: int): C {
    c.(live := c.live - {id}, retired := Evict(c.retired + [id], c.maxRetired), destroyed := c.destroyed + [id])
  }

  /** The job queue has withdrawn a job's boards: they are powered off. */
  function Withdraw(site: Site, c: C, id: int, order: seq<Frame>): C
    requires id in c.records && c.records[id].grant.Some? && GrantOk(site, c.records[id].grant.value)
  {
    SetPower(site, Retire(c, id), id, false, None, order)
  }

  /** The job queue has cancelled a job that waits. */
  function Cancel(c: C, id: int): C {
    Retire(c.(queue := c.queue - {id}), id)
  }

  predicate Destroyable(site: Site, c: C, id: int) {
    id in c.live && id in c.queue ==>
      id in c.records && c.queue[id] == c.records[id].grant && (c.queue[id].Some? ==> GrantOk(site, c.queue[id].value))
  }

  /** Destroy a job. For one that the job queue has refused, the queue raises an error, and nothing happens. */
  function Destroy(site: Site, c: C, id: int, order: seq<Frame>): C
    requires Destroyable(site, c, id)
  {
    if id !in c.live || id !in c.queue then c
    else if c.queue[id].None? then Cancel(c, id)
    else Withdraw(site, c, id, order)
  }

  /** The boards whose power state is known after a command for these boards has ended. */
  function Switched(lit: Lights, machine: string, boards: set<Board>, r: Report): Lights {
    var keys := set b | b in boards :: (machine, b);
    if r.success then lit + map key | key in keys :: r.power else lit - keys
  }

  /** The links a request switches. */
  function Addressed(site: Site, r: Request): set<Port> {
    if r.machine !in site then {}
    else
      var layout := site[r.machine];
      set b, l | b in layout && l in r.links && layout[b].Rack() == r.frame && layout[b].board == l.0 :: (b, l.1)
  }

  function SetByRequest(site: Site, r: Request): Wires {
    map p | p in Addressed(site, r) :: (r.machine, p) := (site[r.machine][p.0].board, p.1, true) in r.links
  }

  /** The links whose state is known after a command has ended. */
  function Rewired(site: Site, wired: Wires, r: Request, success: bool): Wires {
    var lost := set key | key in wired && key.0 == r.machine && key.1.0 in Targets(site, r);
    if success then (wired - lost) + SetByRequest(site, r) else wired - lost
  }

  /** A request has been completed: count down, and at zero give back the boards of a job known to be destroyed. */
  function CountDown(site: Site, c: C, t: nat, success: bool): C
    requires t in c.bmp && c.bmp[t].job in c.records
  {
    var r := c.bmp[t];
    var rec := c.records[r.job];
    var n := rec.requestsUntilReady - 1;
    var state := if n == 0 then Ready else rec.state;
    var report := Report(r.power, success);
    c.(bmp := c.bmp - {t}, done := c.done[(r.job, r.frame) := report],
       lit := Switched(c.lit, r.machine, Targets(site, r), report),
       wired := Rewired(site, c.wired, r, success),
       records := c.records[r.job := rec.(requestsUntilReady := n, state := state)],
       queue := if n == 0 && r.job in c.retired then c.queue - {r.job} else c.queue)
  }

  predicate Completable(site: Site, c: C, t: nat) {
    && t in c.bmp && c.bmp[t].job in c.records && Destroyable(site, c, c.bmp[t].job)
    && forall u :: u in c.bmp ==> u < c.nextTicket
  }

  /** A failed request destroys its job first. */
  function Complete(site: Site, c: C, t: nat, success: bool, order: seq<Frame>): C
    requires Completable(site, c, t)
  {
    if success then CountDown(site, c, t, true)
    else CountDown(site, Destroy(site, c, c.bmp[t].job, order), t, false)
  }

  predicate Switchable(site: Site, c: C, id: int) {
    id in c.live ==> id in c.records && (c.records[id].grant.Some? ==> GrantOk(site, c.records[id].grant.value))
  }

  /** A user switches a job's boards; nothing happens for a job that has none or is not there. */
  function SwitchJob(site: Site, c: C, id: int, on: bool, order: seq<Frame>): C
    requires Switchable(site, c, id)
  {
    if id in c.live && c.records[id].grant.Some? then SetPower(site, c, id, on, if on then Some(false) else None, order)
    else c
  }

  function SetMaxRetired(c: C, most: nat): C {
    c.(maxRetired := most, retired := if |c.retired| > most then c.retired[|c.retired| - most..] else c.retired)
  }

  // ----- the invariant

  function Outstanding(bmp: map<nat, Request>, id: int): set<nat> {
    set t | t in bmp && bmp[t].job == id
  }

  ghost predicate For(r: Request, id: int, f: Frame) {
    r.job == id && r.frame == f
  }

  ghost predicate Newest(bmp: map<nat, Request>, id: int, f: Frame, t: nat) {
    t in bmp && For(bmp[t], id, f) && forall u :: u in bmp && For(bmp[u], id, f) ==> u <= t
  }

  /** The last command sent to this frame for this job, completed or not, was for this power state. */
  ghost predicate Follows(c: C, id: int, f: Frame, power: bool) {
    && (forall t :: Newest(c.bmp, id, f, t) ==> c.bmp[t].power == power)
    && ((forall t :: t in c.bmp ==> !For(c.bmp[t], id, f)) ==> (id, f) in c.done && c.done[(id, f)].power == power)
  }

  /** The counter is exact, the state says whether it is zero, and the last commands are for the job's power state. */
  ghost predicate PowerOk(site: Site, c: C, id: int)
    requires id in c.records
  {
    var rec := c.records[id];
    match rec.grant
    case None => rec == JobRecord(Queued, None, None, 0)
    case Some(g) =>
      && rec.power.Some? && GrantOk(site, g)
      && rec.state == (if rec.requestsUntilReady > 0 then Power else Ready)
      && forall f {:trigger Follows(c, id, f, rec.power.value)} :: f in FramesOf(site, g) ==> Follows(c, id, f, rec.power.value)
  }

  /**
   * A live job with boards is known to the job queue, and so is one without, unless it has been refused; a destroyed one
   * keeps its boards while commands are outstanding.
   */
  ghost predicate StandingOk(c: C, id: int)
    requires id in c.records
  {
    var rec := c.records[id];
    && id < c.nextId
    && (id in c.live ==> id !in c.retired && (id in c.queue || rec.grant.None?))
    && (id in c.queue ==> c.queue[id] == rec.grant)
    && (id in c.queue && id !in c.live ==>
          rec.grant.Some? && rec.power == Some(false) && (rec.requestsUntilReady > 0 || id !in c.retired))
    && (id !in c.queue ==> rec.requestsUntilReady == 0)
  }

  ghost predicate JobOk(site: Site, c: C, id: int) {
    && id in c.records && c.records[id].requestsUntilReady == |Outstanding(c.bmp, id)|
    && PowerOk(site, c, id) && StandingOk(c, id)
  }

  /** A request is one of those its job's boards call for. */
  ghost predicate RequestOk(site: Site, records: map<int, JobRecord>, r: Request) {
    && r.job in records && records[r.job].grant.Some? && GrantOk(site, records[r.job].grant.value)
    && var g := records[r.job].grant.value;
       r.machine == g.machine && r.frame in FramesOf(site, g)
       && r.boards == BoardsIn(site[g.machine], g.boards, r.frame)
       && r.links == LinksIn(site[g.machine], g.periphery, LinksWith(r.power), r.frame)
  }

  /** With power on, the links around a job are disabled; with power off, links are left alone. */
  function LinksWith(power: bool): Option<bool> {
    if power then Some(false) else None
  }

  ghost predicate RequestsOk(site: Site, c: C) {
    forall t {:trigger RequestOk(site, c.records, c.bmp[t])} ::
      t in c.bmp ==> t < c.nextTicket && RequestOk(site, c.records, c.bmp[t])
  }

  ghost predicate HeldApart(queue: map<int, Option<Grant>>) {
    forall id, other {:trigger queue[id], queue[other]} ::
      id in queue && other in queue && id != other && queue[id].Some? && queue[other].Some? ==>
        Apart(queue[id].value, queue[other].value)
  }

  predicate Distinct(ids: seq<int>) {
    forall i, j :: 0 <= i < j < |ids| ==> ids[i] != ids[j]
  }

  /** The remembered destroyed jobs are the latest ones, within the limit. */
  ghost predicate RetiredOk(c: C) {
    && |c.retired| <= c.maxRetired && |c.retired| <= |c.destroyed|
    && c.retired == c.destroyed[|c.destroyed| - |c.retired|..]
    && Distinct(c.destroyed) && forall id :: id in c.destroyed <==> id in c.records && id !in c.live
  }

  type Reports = map<(int, Frame), Report>

  type Lights = map<(string, Board), bool>

  type Wires = map<(string, Port), bool>

  /** A board's power state is known if and only if the last command for its frame succeeded, and is what that was for. */
  predicate BoardKnown(done: Reports, lit: Lights, id: int, key: (string, Board), f: Frame) {
    (id, f) in done ==>
      && (key in lit <==> done[(id, f)].success)
      && (key in lit ==> lit[key] == done[(id, f)].power)
  }

  ghost predicate BoardsKnown(site: Site, done: Reports, lit: Lights, id: int, g: Grant)
    requires GrantOk(site, g)
  {
    forall b {:trigger BoardKnown(done, lit, id, (g.machine, b), site[g.machine][b].Rack())} ::
      b in g.boards ==> BoardKnown(done, lit, id, (g.machine, b), site[g.machine][b].Rack())
  }

  /** Only jobs that have been given boards have had commands completed. */
  ghost predicate ReportsOk(records: map<int, JobRecord>, done: Reports) {
    forall key :: key in done ==> key.0 in records && records[key.0].grant.Some?
  }

  /** What is known of the hardware of the jobs that have boards is what their last commands did. */
  ghost predicate HardwareOk(site: Site, queue: map<int, Option<Grant>>, done: Reports, lit: Lights) {
    forall id {:trigger queue[id]} :: id in queue && queue[id].Some? ==>
      GrantOk(site, queue[id].value) && BoardsKnown(site, done, lit, id, queue[id].value)
  }

  /**
   * A link around a job is known to be disabled if the last command for its frame was to power on and succeeded; else
   * nothing is known of it.
   */
  predicate WireKnown(done: Reports, wired: Wires, id: int, key: (string, Port), f: Frame) {
    (id, f) in done ==>
      && (key in wired <==> done[(id, f)].success && done[(id, f)].power)
      && (key in wired ==> !wired[key])
  }

  ghost predicate WiresKnown(site: Site, done: Reports, wired: Wires, id: int, g: Grant)
    requires GrantOk(site, g)
  {
    forall p {:trigger WireKnown(done, wired, id, (g.machine, p), site[g.machine][p.0].Rack())} ::
      p in g.periphery ==> WireKnown(done, wired, id, (g.machine, p), site[g.machine][p.0].Rack())
  }

  ghost predicate WiresOk(site: Site, queue: map<int, Option<Grant>>, done: Reports, wired: Wires) {
    forall id {:trigger queue[id]} :: id in queue && queue[id].Some? ==>
      GrantOk(site, queue[id].value) && WiresKnown(site, done, wired, id, queue[id].value)
  }

  /** No command for a job that is live has failed. */
  ghost predicate LiveOk(live: set<int>, done: Reports) {
    forall key :: key in done && key.0 in live ==> done[key].success
  }

  /** All that is known of the hardware is so. */
  ghost predicate KnowledgeOk(site: Site, c: C) {
    && ReportsOk(c.records, c.done) && HardwareOk(site, c.queue, c.done, c.lit)
    && WiresOk(site, c.queue, c.done, c.wired) && LiveOk(c.live, c.done)
  }

  ghost predicate Inv(site: Site, c: C) {
    && SiteOk(site)
    && (forall id {:trigger JobOk(site, c, id)} :: id in c.records ==> JobOk(site, c, id))
    && RequestsOk(site, c)
    && c.live <= c.records.Keys && c.queue.Keys <= c.records.Keys
    && HeldApart(c.queue) && RetiredOk(c)
    && KnowledgeOk(site, c)
  }

  lemma InitialHolds(site: Site, nextId: int, maxRetired: nat)
    requires SiteOk(site)
    ensures Inv(site, Initial(nextId, maxRetired))
  {
  }

  // ----- jobs that an action does not concern

  /** Nothing about this job has changed. */
  ghost predicate Same(c: C, c': C, id: int) {
    && id in c.records && id in c'.records && c'.records[id] == c.records[id] && c.nextId <= c'.nextId
    && (id in c'.live <==> id in c.live)
    && (id in c'.queue <==> id in c.queue) && (id in c.queue ==> c'.queue[id] == c.queue[id])
    && (id in c'.retired ==> id in c.retired)
    && (forall t :: t in c'.bmp && c'.bmp[t].job == id <==> t in c.bmp && c.bmp[t].job == id)
    && (forall t :: t in c.bmp && c.bmp[t].job == id ==> c'.bmp[t] == c.bmp[t])
    && (forall f: Frame :: (id, f) in c'.done <==> (id, f) in c.done)
    && (forall f: Frame :: (id, f) in c.done ==> c'.done[(id, f)] == c.done[(id, f)])
  }

  lemma SameKeeps(site: Site, c: C, c': C, id: int)
    requires JobOk(site, c, id) && Same(c, c', id)
    ensures JobOk(site, c', id)
  {
    assert Outstanding(c'.bmp, id) == Outstanding(c.bmp, id);
    var rec := c.records[id];
    if rec.grant.Some? {
      forall f | f in FramesOf(site, rec.grant.value)
        ensures Follows(c', id, f, rec.power.value)
      {
        assert Follows(c, id, f, rec.power.value);
        forall t | Newest(c'.bmp, id, f, t)
          ensures c'.bmp[t].power == rec.power.value
        {
          assert Newest(c.bmp, id, f, t);
        }
      }
    }
  }

  // ----- sending commands

  /** Requests are where they were sent. */
  lemma {:induction false} SentAt(bmp: map<nat, Request>, n: nat, reqs: seq<Request>, t: nat)
    requires forall u :: u in bmp ==> u < n
    ensures t in Sent(bmp, n, reqs) <==> t in bmp || n <= t < n + |reqs|
    ensures t in bmp ==> Sent(bmp, n, reqs)[t] == bmp[t]
    ensures n <= t < n + |reqs| ==> Sent(bmp, n, reqs)[t] == reqs[t - n]
    decreases |reqs|
  {
    if reqs != [] {
      SentAt(bmp[n := reqs[0]], n + 1, reqs[1..], t);
    }
  }

  /** Sending n requests for a job raises its number of outstanding requests by n. */
  lemma {:induction false} SentCounts(bmp: map<nat, Request>, n: nat, reqs: seq<Request>, id: int)
    requires forall t :: t in bmp ==> t < n
    requires forall k :: 0 <= k < |reqs| ==> reqs[k].job == id
    ensures |Outstanding(Sent(bmp, n, reqs), id)| == |Outstanding(bmp, id)| + |reqs|
    decreases |reqs|
  {
    if reqs != [] {
      var bmp1 := bmp[n := reqs[0]];
      SentCounts(bmp1, n + 1, reqs[1..], id);
      assert Outstanding(bmp1, id) == Outstanding(bmp, id) + {n};
    }
  }

  lemma TicketsBelow(site: Site, c: C)
    requires RequestsOk(site, c)
    ensures forall t :: t in c.bmp ==> t < c.nextTicket
  {
    forall t | t in c.bmp
      ensures t < c.nextTicket
    {
      assert RequestOk(site, c.records, c.bmp[t]);
    }
  }

  /** What the outstanding commands are once a batch has been sent. */
  lemma SetPowerSends(site: Site, c: C, id: int, power: bool, enable: Option<bool>, order: seq<Frame>)
    requires id in c.records && c.records[id].grant.Some? && GrantOk(site, c.records[id].grant.value)
    requires RequestsOk(site, c)
    ensures var c' := SetPower(site, c, id, power, enable, order);
            var g := c.records[id].grant.value;
            && c'.nextTicket == c.nextTicket + |order|
            && (forall t: nat :: t in c'.bmp <==> t in c.bmp || c.nextTicket <= t < c'.nextTicket)
            && (forall t :: t in c.bmp ==> t < c.nextTicket && c'.bmp[t] == c.bmp[t])
            && (forall t: nat :: c.nextTicket <= t < c'.nextTicket ==>
                  c'.bmp[t] == RequestFor(site, id, g, order[t - c.nextTicket], power, enable))
            && |Outstanding(c'.bmp, id)| == |Outstanding(c.bmp, id)| + |order|
  {
    var g := c.records[id].grant.value;
    var c' := SetPower(site, c, id, power, enable, order);
    TicketsBelow(site, c);
    assert c'.bmp == Sent(c.bmp, c.nextTicket, Batch(site, id, g, order, power, enable));
    forall t: nat
      ensures t in c'.bmp <==> t in c.bmp || c.nextTicket <= t < c'.nextTicket
      ensures t in c.bmp ==> c'.bmp[t] == c.bmp[t]
      ensures c.nextTicket <= t < c'.nextTicket ==>
                c'.bmp[t] == RequestFor(site, id, g, order[t - c.nextTicket], power, enable)
    {
      BatchAt(site, c.bmp, c.nextTicket, id, g, order, power, enable, t);
    }
    SentCounts(c.bmp, c.nextTicket, Batch(site, id, g, order, power, enable), id);
  }

  lemma BatchAt(site: Site, bmp: map<nat, Request>, n: nat, id: int, g: Grant, order: seq<Frame>, power: bool,
      enable: Option<bool>, t: nat)
    requires GrantOk(site, g) && forall u :: u in bmp ==> u < n
    ensures var all := Sent(bmp, n, Batch(site, id, g, order, power, enable));
            && (t in all <==> t in bmp || n <= t < n + |order|)
            && (t in bmp ==> all[t] == bmp[t])
            && (n <= t < n + |order| ==> all[t] == RequestFor(site, id, g, order[t - n], power, enable))
  {
    SentAt(bmp, n, Batch(site, id, g, order, power, enable), t);
  }

  /** After a batch the newest request of every frame is the one just sent. */
  lemma SentFollows(site: Site, c: C, id: int, power: bool, enable: Option<bool>, order: seq<Frame>, k: nat)
    requires id in c.records && c.records[id].grant.Some? && GrantOk(site, c.records[id].grant.value)
    requires RequestsOk(site, c) && k < |order| && forall i, j :: 0 <= i < j < |order| ==> order[i] != order[j]
    ensures Follows(SetPower(site, c, id, power, enable, order), id, order[k], power)
  {
    var c' := SetPower(site, c, id, power, enable, order);
    SetPowerSends(site, c, id, power, enable, order);
    var t := c.nextTicket + k;
    assert t in c'.bmp && For(c'.bmp[t], id, order[k]) && c'.bmp[t].power == power;
    forall u: nat | Newest(c'.bmp, id, order[k], u)
      ensures u == t
    {
      assert t <= u;
      assert order[u - c.nextTicket] == order[k];
    }
  }

  /** The job may be powered: its counter is exact, and it is live or being switched off. */
  ghost predicate Powerable(site: Site, c: C, id: int, power: bool) {
    && id in c.records && c.records[id].grant.Some? && GrantOk(site, c.records[id].grant.value)
    && c.records[id].requestsUntilReady == |Outstanding(c.bmp, id)|
    && id < c.nextId && id in c.queue && c.queue[id] == c.records[id].grant
    && (if id in c.live then id !in c.retired else !power)
  }

  lemma FramesNotEmpty(site: Site, g: Grant, order: seq<Frame>)
    requires GrantOk(site, g) && Ordering(order, FramesOf(site, g))
    ensures order != []
  {
    var b :| b in g.boards;
    assert site[g.machine][b].Rack() in FramesOf(site, g);
  }

  lemma SetPowerJob(site: Site, c: C, id: int, power: bool, enable: Option<bool>, order: seq<Frame>)
    requires Powerable(site, c, id, power) && RequestsOk(site, c)
    requires Ordering(order, FramesOf(site, c.records[id].grant.value))
    ensures JobOk(site, SetPower(site, c, id, power, enable, order), id)
  {
    var g := c.records[id].grant.value;
    var c' := SetPower(site, c, id, power, enable, order);
    SetPowerSends(site, c, id, power, enable, order);
    FramesNotEmpty(site, g, order);
    forall f | f in FramesOf(site, g)
      ensures Follows(c', id, f, power)
    {
      var k :| 0 <= k < |order| && order[k] == f;
      SentFollows(site, c, id, power, enable, order, k);
    }
  }

  lemma SetPowerRequests(site: Site, c: C, id: int, power: bool, enable: Option<bool>, order: seq<Frame>)
    requires id in c.records && c.records[id].grant.Some? && GrantOk(site, c.records[id].grant.value)
    requires Ordering(order, FramesOf(site, c.records[id].grant.value)) && RequestsOk(site, c) && enable == LinksWith(power)
    ensures RequestsOk(site, SetPower(site, c, id, power, enable, order))
  {
    var c' := SetPower(site, c, id, power, enable, order);
    SetPowerSends(site, c, id, power, enable, order);
    forall t | t in c'.bmp
      ensures t < c'.nextTicket && RequestOk(site, c'.records, c'.bmp[t])
    {
      if t in c.bmp {
        assert RequestOk(site, c.records, c.bmp[t]);
      } else {
        assert order[t - c.nextTicket] in order;
      }
    }
  }

  lemma SetPowerElsewhere(site: Site, c: C, id: int, power: bool, enable: Option<bool>, order: seq<Frame>, other: int)
    requires id in c.records && c.records[id].grant.Some? && GrantOk(site, c.records[id].grant.value)
    requires RequestsOk(site, c) && other != id && JobOk(site, c, other)
    ensures JobOk(site, SetPower(site, c, id, power, enable, order), other)
  {
    SetPowerSends(site, c, id, power, enable, order);
    SameKeeps(site, c, SetPower(site, c, id, power, enable, order), other);
  }

  /** The invariant but for one job. */
  ghost predicate InvBut(site: Site, c: C, id: int) {
    && SiteOk(site)
    && (forall other {:trigger JobOk(site, c, other)} :: other in c.records && other != id ==> JobOk(site, c, other))
    && RequestsOk(site, c)
    && c.live <= c.records.Keys && c.queue.Keys <= c.records.Keys
    && HeldApart(c.queue) && RetiredOk(c)
    && KnowledgeOk(site, c)
  }

  lemma SetPowerKeeps(site: Site, c: C, id: int, power: bool, enable: Option<bool>, order: seq<Frame>)
    requires InvBut(site, c, id) && Powerable(site, c, id, power) && enable == LinksWith(power)
    requires Ordering(order, FramesOf(site, c.records[id].grant.value))
    ensures Inv(site, SetPower(site, c, id, power, enable, order))
  {
    var c' := SetPower(site, c, id, power, enable, order);
    forall other | other in c'.records
      ensures JobOk(site, c', other)
    {
      if other == id {
        SetPowerJob(site, c, id, power, enable, order);
      } else {
        SetPowerElsewhere(site, c, id, power, enable, order, other);
      }
    }
    SetPowerRequests(site, c, id, power, enable, order);
  }

  // ----- every action keeps the invariant

  /** Everybody but one job is as before. */
  lemma OthersKeep(site: Site, c: C, c': C, id: int)
    requires InvBut(site, c, id) && c'.records.Keys == c.records.Keys
    requires forall other :: other in c.records && other != id ==> Same(c, c', other)
    ensures forall other :: other in c'.records && other != id ==> JobOk(site, c', other)
  {
    forall other | other in c'.records && other != id
      ensures JobOk(site, c', other)
    {
      SameKeeps(site, c, c', other);
    }
  }

  /** Records may change, but not what the jobs have been given. */
  lemma RequestsStay(site: Site, c: C, c': C)
    requires RequestsOk(site, c) && c.nextTicket <= c'.nextTicket
    requires forall t :: t in c'.bmp ==> t in c.bmp && c'.bmp[t] == c.bmp[t]
    requires forall id :: id in c.records && c.records[id].grant.Some? ==>
               id in c'.records && c'.records[id].grant == c.records[id].grant
    ensures RequestsOk(site, c')
  {
    forall t | t in c'.bmp
      ensures t < c'.nextTicket && RequestOk(site, c'.records, c'.bmp[t])
    {
      assert RequestOk(site, c.records, c.bmp[t]);
    }
  }

  /** No request is outstanding for a job without boards. */
  lemma NoRequests(site: Site, c: C, id: int)
    requires RequestsOk(site, c) && (id in c.records ==> c.records[id].grant.None?)
    ensures Outstanding(c.bmp, id) == {}
  {
    forall t | t in c.bmp
      ensures c.bmp[t].job != id
    {
      assert RequestOk(site, c.records, c.bmp[t]);
    }
  }

  lemma CreateJobs(site: Site, c: C)
    requires Inv(site, c) && forall id :: id in c.records ==> id < c.nextId
    ensures forall id :: id in Create(c).records ==> JobOk(site, Create(c), id)
  {
    var c' := Create(c);
    NoRequests(site, c, c.nextId);
    forall id | id in c'.records
      ensures JobOk(site, c', id)
    {
      if id != c.nextId {
        SameKeeps(site, c, c', id);
      }
    }
  }

  lemma CreateKnowledge(site: Site, c: C)
    requires KnowledgeOk(site, c) && c.nextId !in c.records
    ensures KnowledgeOk(site, Create(c)) && KnowledgeOk(site, CreateRefused(c))
  {
    var c' := Create(c);
    forall id | id in c'.queue && c'.queue[id].Some?
      ensures id in c.queue && c'.queue[id] == c.queue[id]
    {
    }
    assert forall key :: key in c.done ==> key.0 in c.records && key.0 != c.nextId;
  }

  lemma CreateKeeps(site: Site, c: C)
    requires Inv(site, c) && forall id :: id in c.records ==> id < c.nextId
    ensures Inv(site, Create(c))
  {
    CreateJobs(site, c);
    CreateKnowledge(site, c);
    RequestsStay(site, c, Create(c));
  }

  /** A job that the queue refuses does no harm to the others. */
  lemma CreateRefusedKeeps(site: Site, c: C)
    requires Inv(site, c) && forall id :: id in c.records ==> id < c.nextId
    ensures Inv(site, CreateRefused(c))
  {
    var c' := CreateRefused(c);
    CreateKnowledge(site, c);
    NoRequests(site, c, c.nextId);
    forall id | id in c'.records
      ensures JobOk(site, c', id)
    {
      if id != c.nextId {
        SameKeeps(site, c, c', id);
      }
    }
    RequestsStay(site, c, c');
  }

  /** Identifiers are never used twice. */
  lemma IdsBelow(site: Site, c: C)
    requires Inv(site, c)
    ensures forall id :: id in c.records ==> id < c.nextId
  {
    forall id | id in c.records
      ensures id < c.nextId
    {
      assert JobOk(site, c, id);
    }
  }

  /** The boards are free: the job queue has given them to nobody else. */
  ghost predicate Grantable(site: Site, c: C, id: int, g: Grant) {
    && id in c.live && id in c.queue && c.queue[id].None? && GrantOk(site, g)
    && forall other :: other in c.queue && c.queue[other].Some? ==> Apart(g, c.queue[other].value)
  }

  lemma GrantRecorded(site: Site, c: C, id: int, g: Grant)
    requires Inv(site, c) && Grantable(site, c, id, g)
    ensures id in c.records
    ensures var c1 := c.(queue := c.queue[id := Some(g)], records := c.records[id := c.records[id].(grant := Some(g))]);
            InvBut(site, c1, id) && Powerable(site, c1, id, true)
  {
    assert JobOk(site, c, id);
    NoRequests(site, c, id);
    var c1 := c.(queue := c.queue[id := Some(g)], records := c.records[id := c.records[id].(grant := Some(g))]);
    OthersKeep(site, c, c1, id);
    RequestsStay(site, c, c1);
  }

  lemma AllocateKeeps(site: Site, c: C, id: int, g: Grant, order: seq<Frame>)
    requires Inv(site, c) && Grantable(site, c, id, g) && Ordering(order, FramesOf(site, g))
    ensures id in c.records && Inv(site, Allocate(site, c, id, g, order))
  {
    GrantRecorded(site, c, id, g);
    var c1 := c.(queue := c.queue[id := Some(g)], records := c.records[id := c.records[id].(grant := Some(g))]);
    SetPowerKeeps(site, c1, id, true, Some(false), order);
  }

  lemma RetireKeeps(site: Site, c: C, id: int)
    requires InvBut(site, c, id) && id in c.records && id in c.live && id !in c.retired
    ensures InvBut(site, Retire(c, id), id)
  {
    var c' := Retire(c, id);
    OthersKeep(site, c, c', id);
    RequestsStay(site, c, c');
    assert c'.retired == c.retired + [id] || c'.retired == (c.retired + [id])[1..];
  }

  lemma WithdrawKeeps(site: Site, c: C, id: int, order: seq<Frame>)
    requires Inv(site, c) && id in c.live && id in c.queue && c.queue[id].Some?
    requires id in c.records && c.records[id].grant.Some? && GrantOk(site, c.records[id].grant.value)
    requires Ordering(order, FramesOf(site, c.records[id].grant.value))
    ensures Inv(site, Withdraw(site, c, id, order))
  {
    assert JobOk(site, c, id);
    RetireKeeps(site, c, id);
    SetPowerKeeps(site, Retire(c, id), id, false, None, order);
  }

  lemma CancelKeeps(site: Site, c: C, id: int)
    requires Inv(site, c) && id in c.live && id in c.queue && c.queue[id].None?
    ensures Inv(site, Cancel(c, id))
  {
    assert JobOk(site, c, id);
    var c1 := c.(queue := c.queue - {id});
    OthersKeep(site, c, c1, id);
    RequestsStay(site, c, c1);
    RetireKeeps(site, c1, id);
    NoRequests(site, c, id);
    assert JobOk(site, Cancel(c, id), id);
  }

  /** It may be tried at any time to destroy a job. */
  lemma CanBeDestroyed(site: Site, c: C, id: int)
    requires Inv(site, c)
    ensures Destroyable(site, c, id)
    ensures id in c.live && id in c.queue && c.queue[id].Some? ==> c.queue[id] == c.records[id].grant
  {
    if id in c.live {
      assert JobOk(site, c, id);
    }
  }

  /** The order in which the frames of a job, if it has any, are dealt with. */
  predicate OrderFor(site: Site, c: C, id: int, order: seq<Frame>) {
    id in c.records && c.records[id].grant.Some? && GrantOk(site, c.records[id].grant.value) ==>
      Ordering(order, FramesOf(site, c.records[id].grant.value))
  }

  lemma DestroyKeeps(site: Site, c: C, id: int, order: seq<Frame>)
    requires Inv(site, c) && Destroyable(site, c, id) && OrderFor(site, c, id, order)
    ensures Inv(site, Destroy(site, c, id, order))
  {
    if id in c.live && id in c.queue {
      if c.queue[id].None? {
        CancelKeeps(site, c, id);
      } else {
        WithdrawKeeps(site, c, id, order);
      }
    }
  }

  /** Only the oldest command sent to a frame can be the next to complete there. */
  predicate FirstInLine(c: C, t: nat) {
    t in c.bmp && forall u :: u in c.bmp && c.bmp[u].machine == c.bmp[t].machine && c.bmp[u].frame == c.bmp[t].frame ==> t <= u
  }

  /** With a command gone that is not later, the newest of the rest is the newest of all. */
  lemma NewestOfRest(bmp: map<nat, Request>, t: nat, id: int, f: Frame, u: nat)
    requires t in bmp && Newest(bmp - {t}, id, f, u) && (For(bmp[t], id, f) ==> t <= u)
    ensures Newest(bmp, id, f, u)
  {
    forall w | w in bmp && For(bmp[w], id, f)
      ensures w <= u
    {
      assert w != t ==> w in bmp - {t} && For((bmp - {t})[w], id, f);
    }
  }

  /** After the oldest command for a frame has completed, the last command there is still for the job's power state. */
  lemma CountDownFollows(site: Site, c: C, t: nat, success: bool, f: Frame, power: bool)
    requires RequestsOk(site, c) && FirstInLine(c, t) && c.bmp[t].job in c.records && Follows(c, c.bmp[t].job, f, power)
    ensures Follows(CountDown(site, c, t, success), c.bmp[t].job, f, power)
  {
    var id := c.bmp[t].job;
    var rest := c.bmp - {t};
    assert RequestOk(site, c.records, c.bmp[t]);
    forall u | u in c.bmp && For(c.bmp[u], id, c.bmp[t].frame)
      ensures t <= u
    {
      assert RequestOk(site, c.records, c.bmp[u]);
    }
    forall u | Newest(rest, id, f, u)
      ensures rest[u].power == power
    {
      NewestOfRest(c.bmp, t, id, f, u);
    }
    if forall u :: u in rest ==> !For(rest[u], id, f) {
      LastOne(site, c, t, success, id, f, power);
    }
  }

  /** When nothing is left to do for a frame, the command that completed last there was the newest. */
  lemma LastOne(site: Site, c: C, t: nat, success: bool, id: int, f: Frame, power: bool)
    requires t in c.bmp && c.bmp[t].job == id && id in c.records && Follows(c, id, f, power)
    requires var rest := c.bmp - {t}; forall u :: u in rest ==> !For(rest[u], id, f)
    ensures (id, f) in CountDown(site, c, t, success).done && CountDown(site, c, t, success).done[(id, f)].power == power
  {
    var rest := c.bmp - {t};
    assert forall u :: u in c.bmp && u != t ==> u in rest && rest[u] == c.bmp[u];
    if f == c.bmp[t].frame {
      assert Newest(c.bmp, id, f, t);
    }
  }

  lemma CountDownJob(site: Site, c: C, t: nat, success: bool)
    requires RequestsOk(site, c) && FirstInLine(c, t) && JobOk(site, c, c.bmp[t].job)
    ensures JobOk(site, CountDown(site, c, t, success), c.bmp[t].job)
    ensures c.records[c.bmp[t].job].requestsUntilReady > 0
  {
    var id := c.bmp[t].job;
    var c' := CountDown(site, c, t, success);
    assert RequestOk(site, c.records, c.bmp[t]);
    assert Outstanding(c.bmp, id) == Outstanding(c'.bmp, id) + {t};
    var g, power := c.records[id].grant.value, c.records[id].power.value;
    forall f | f in FramesOf(site, g)
      ensures Follows(c', id, f, power)
    {
      assert Follows(c, id, f, power);
      CountDownFollows(site, c, t, success, f, power);
    }
  }

  /** A command acts on all the boards its job holds in its frame, and on no others. */
  lemma TargetsOf(site: Site, records: map<int, JobRecord>, r: Request, b: Board)
    requires SiteOk(site) && RequestOk(site, records, r)
    ensures b in Targets(site, r) <==>
              b in records[r.job].grant.value.boards && site[r.machine][b].Rack() == r.frame
  {
    var layout := site[r.machine];
    if b in Targets(site, r) {
      var other :| other in records[r.job].grant.value.boards
        && layout[other].Rack() == r.frame && layout[other].board == layout[b].board;
      assert layout[other] == layout[b];
    }
  }

  lemma SwitchedAt(lit: Lights, machine: string, boards: set<Board>, r: Report, key: (string, Board))
    ensures var lit' := Switched(lit, machine, boards, r);
            if key.0 == machine && key.1 in boards then
              (key in lit' <==> r.success) && (key in lit' ==> lit'[key] == r.power)
            else
              (key in lit' <==> key in lit) && (key in lit' ==> lit'[key] == lit[key])
  {
    assert key == (key.0, key.1);
  }

  lemma CountDownBoard(site: Site, c: C, t: nat, success: bool, id: int, g: Grant, b: Board)
    requires SiteOk(site) && HeldApart(c.queue) && HardwareOk(site, c.queue, c.done, c.lit)
    requires t in c.bmp && RequestOk(site, c.records, c.bmp[t])
    requires c.bmp[t].job in c.queue && c.queue[c.bmp[t].job] == c.records[c.bmp[t].job].grant
    requires id in c.queue && c.queue[id] == Some(g) && GrantOk(site, g) && b in g.boards
    ensures var c' := CountDown(site, c, t, success);
            BoardKnown(c'.done, c'.lit, id, (g.machine, b), site[g.machine][b].Rack())
  {
    var r := c.bmp[t];
    var key, f := (g.machine, b), site[g.machine][b].Rack();
    SwitchedAt(c.lit, r.machine, Targets(site, r), Report(r.power, success), key);
    assert BoardKnown(c.done, c.lit, id, key, f);
    TargetsOf(site, c.records, r, b);
    if id != r.job {
      assert Apart(c.queue[id].value, c.queue[r.job].value);
    }
  }

  lemma CountDownHardware(site: Site, c: C, t: nat, success: bool)
    requires SiteOk(site) && HeldApart(c.queue) && HardwareOk(site, c.queue, c.done, c.lit)
    requires t in c.bmp && RequestOk(site, c.records, c.bmp[t])
    requires c.bmp[t].job in c.queue && c.queue[c.bmp[t].job] == c.records[c.bmp[t].job].grant
    ensures var c' := CountDown(site, c, t, success); HardwareOk(site, c'.queue, c'.done, c'.lit)
  {
    var c' := CountDown(site, c, t, success);
    forall id | id in c'.queue && c'.queue[id].Some?
      ensures GrantOk(site, c'.queue[id].value) && BoardsKnown(site, c'.done, c'.lit, id, c'.queue[id].value)
    {
      var g := c.queue[id].value;
      assert GrantOk(site, g);
      forall b | b in g.boards
        ensures BoardKnown(c'.done, c'.lit, id, (g.machine, b), site[g.machine][b].Rack())
      {
        CountDownBoard(site, c, t, success, id, g, b);
      }
    }
  }

  /** A command switches the links around its job in its frame, if it is to power on, and disables them. */
  lemma AddressedOf(site: Site, records: map<int, JobRecord>, r: Request, p: Port)
    requires SiteOk(site) && RequestOk(site, records, r)
    ensures p in Addressed(site, r) <==>
              r.power && p in records[r.job].grant.value.periphery && site[r.machine][p.0].Rack() == r.frame
    ensures p in Addressed(site, r) ==> (site[r.machine][p.0].board, p.1, true) !in r.links && p.0 in Targets(site, r)
  {
    var g, layout := records[r.job].grant.value, site[r.machine];
    if p in Addressed(site, r) {
      var l :| l in r.links && layout[p.0].Rack() == r.frame && layout[p.0].board == l.0 && l.1 == p.1;
      var q :| q in g.periphery && layout[q.0].Rack() == r.frame && l == (layout[q.0].board, q.1, false);
      assert layout[q.0] == layout[p.0];
      assert q == (q.0, q.1) && p == (p.0, p.1);
      TargetsOf(site, records, r, p.0);
    }
    if r.power && p in g.periphery && layout[p.0].Rack() == r.frame {
      assert (layout[p.0].board, p.1, false) in r.links;
      assert p == (p.0, p.1);
    }
  }

  lemma RewiredAt(site: Site, wired: Wires, r: Request, success: bool, p: Port, machine: string)
    ensures var wired', key := Rewired(site, wired, r, success), (machine, p);
            if machine == r.machine && p in Addressed(site, r) && success then
              key in wired' && wired'[key] == ((site[machine][p.0].board, p.1, true) in r.links)
            else if machine == r.machine && p.0 in Targets(site, r) then key !in wired'
            else (key in wired' <==> key in wired) && (key in wired' ==> wired'[key] == wired[key])
  {
    if machine == r.machine && p in Addressed(site, r) {
      assert (machine, p) in SetByRequest(site, r);
    }
  }

  lemma CountDownWire(site: Site, c: C, t: nat, success: bool, id: int, g: Grant, p: Port)
    requires SiteOk(site) && HeldApart(c.queue) && WiresOk(site, c.queue, c.done, c.wired)
    requires t in c.bmp && RequestOk(site, c.records, c.bmp[t])
    requires c.bmp[t].job in c.queue && c.queue[c.bmp[t].job] == c.records[c.bmp[t].job].grant
    requires id in c.queue && c.queue[id] == Some(g) && GrantOk(site, g) && p in g.periphery
    ensures var c' := CountDown(site, c, t, success);
            WireKnown(c'.done, c'.wired, id, (g.machine, p), site[g.machine][p.0].Rack())
  {
    var r := c.bmp[t];
    RewiredAt(site, c.wired, r, success, p, g.machine);
    assert WireKnown(c.done, c.wired, id, (g.machine, p), site[g.machine][p.0].Rack());
    if g.machine == r.machine {
      AddressedOf(site, c.records, r, p);
      TargetsOf(site, c.records, r, p.0);
    }
    if id != r.job {
      assert Apart(c.queue[id].value, c.queue[r.job].value);
    }
  }

  lemma CountDownWires(site: Site, c: C, t: nat, success: bool)
    requires SiteOk(site) && HeldApart(c.queue) && WiresOk(site, c.queue, c.done, c.wired)
    requires t in c.bmp && RequestOk(site, c.records, c.bmp[t])
    requires c.bmp[t].job in c.queue && c.queue[c.bmp[t].job] == c.records[c.bmp[t].job].grant
    ensures var c' := CountDown(site, c, t, success); WiresOk(site, c'.queue, c'.done, c'.wired)
  {
    var c' := CountDown(site, c, t, success);
    forall id | id in c'.queue && c'.queue[id].Some?
      ensures GrantOk(site, c'.queue[id].value) && WiresKnown(site, c'.done, c'.wired, id, c'.queue[id].value)
    {
      var g := c.queue[id].value;
      assert GrantOk(site, g);
      forall p | p in g.periphery
        ensures WireKnown(c'.done, c'.wired, id, (g.machine, p), site[g.machine][p.0].Rack())
      {
        CountDownWire(site, c, t, success, id, g, p);
      }
    }
  }

  lemma CountDownOthers(site: Site, c: C, t: nat, success: bool)
    requires Inv(site, c) && FirstInLine(c, t) && c.bmp[t].job in c.records
    ensures forall other :: other in c.records && other != c.bmp[t].job ==> JobOk(site, CountDown(site, c, t, success), other)
  {
    var c' := CountDown(site, c, t, success);
    forall other | other in c.records && other != c.bmp[t].job
      ensures JobOk(site, c', other)
    {
      SameKeeps(site, c, c', other);
    }
  }

  lemma CountDownKnowledge(site: Site, c: C, t: nat, success: bool)
    requires SiteOk(site) && HeldApart(c.queue) && KnowledgeOk(site, c)
    requires t in c.bmp && RequestOk(site, c.records, c.bmp[t]) && (success || c.bmp[t].job !in c.live)
    requires c.bmp[t].job in c.queue && c.queue[c.bmp[t].job] == c.records[c.bmp[t].job].grant
    ensures KnowledgeOk(site, CountDown(site, c, t, success))
  {
    CountDownHardware(site, c, t, success);
    CountDownWires(site, c, t, success);
  }

  lemma CountDownKeeps(site: Site, c: C, t: nat, success: bool)
    requires Inv(site, c) && FirstInLine(c, t) && c.bmp[t].job in c.records && (success || c.bmp[t].job !in c.live)
    ensures Inv(site, CountDown(site, c, t, success))
    ensures c.records[c.bmp[t].job].requestsUntilReady > 0
  {
    var c' := CountDown(site, c, t, success);
    assert JobOk(site, c, c.bmp[t].job);
    CountDownJob(site, c, t, success);
    CountDownKnowledge(site, c, t, success);
    CountDownOthers(site, c, t, success);
    RequestsStay(site, c, c');
  }

  lemma SwitchJobKeeps(site: Site, c: C, id: int, on: bool, order: seq<Frame>)
    requires Inv(site, c) && OrderFor(site, c, id, order)
    ensures Switchable(site, c, id)
    ensures Inv(site, SwitchJob(site, c, id, on, order))
  {
    if id in c.live {
      assert JobOk(site, c, id);
      if c.records[id].grant.Some? {
        SetPowerKeeps(site, c, id, on, if on then Some(false) else None, order);
      }
    }
  }

  lemma DestroyKeepsLine(site: Site, c: C, t: nat, order: seq<Frame>)
    requires Inv(site, c) && FirstInLine(c, t) && Destroyable(site, c, c.bmp[t].job)
    ensures var c1 := Destroy(site, c, c.bmp[t].job, order);
            FirstInLine(c1, t) && c1.bmp[t] == c.bmp[t] && c1.records.Keys == c.records.Keys && c.bmp[t].job !in c1.live
    ensures Completable(site, c, t)
  {
    var id := c.bmp[t].job;
    assert RequestOk(site, c.records, c.bmp[t]);
    assert id in c.records && JobOk(site, c, id);
    if id in c.live && id in c.queue && c.queue[id].Some? {
      RequestsStay(site, c, Retire(c, id));
      SetPowerSends(site, Retire(c, id), id, false, None, order);
    }
    TicketsBelow(site, c);
  }

  lemma CompleteKeeps(site: Site, c: C, t: nat, success: bool, order: seq<Frame>)
    requires Inv(site, c) && FirstInLine(c, t) && OrderFor(site, c, c.bmp[t].job, order)
    ensures Completable(site, c, t) && Inv(site, Complete(site, c, t, success, order))
  {
    var id := c.bmp[t].job;
    assert RequestOk(site, c.records, c.bmp[t]);
    CanBeDestroyed(site, c, id);
    DestroyKeepsLine(site, c, t, order);
    if success {
      CountDownKeeps(site, c, t, true);
    } else {
      DestroyKeeps(site, c, id, order);
      CountDownKeeps(site, Destroy(site, c, id, order), t, false);
    }
  }

  lemma {:induction false} TrimKeeps(c: C, c': C, k: nat)
    requires RetiredOk(c) && k <= |c.retired| && c' == c.(retired := c.retired[k..], maxRetired := c'.maxRetired)
    requires |c'.retired| <= c'.maxRetired
    ensures RetiredOk(c') && forall id :: id in c'.retired ==> id in c.retired
  {
    forall id | id in c'.retired
      ensures id in c.retired
    {
      var i :| 0 <= i < |c'.retired| && c'.retired[i] == id;
      assert c.retired[k + i] == id;
    }
  }

  lemma SetMaxRetiredKeeps(site: Site, c: C, most: nat)
    requires Inv(site, c)
    ensures Inv(site, SetMaxRetired(c, most))
  {
    var c' := SetMaxRetired(c, most);
    TrimKeeps(c, c', |c.retired| - |c'.retired|);
    forall id | id in c'.records
      ensures JobOk(site, c', id)
    {
      assert JobOk(site, c, id);
      SameKeeps(site, c, c', id);
    }
    RequestsStay(site, c, c');
  }
}
