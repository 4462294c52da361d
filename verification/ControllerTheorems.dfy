/**
 * What holds of the controller over whole runs: exact counters, no boards reused while commands are outstanding, and
 * what becomes of the boards of a destroyed job.
 */
module ControllerTheorems {
  import opened Wrappers
  import opened Coordinates
  import opened CandidateFilter
  import opened ControllerModel

  // ----- runs

  /** Everything that can happen, whoever causes it; order is the order in which frames are dealt with. */
  datatype Action =
    | DoCreate
    | DoCreateRefused
    | DoAllocate(id: int, grant: Grant, order: seq<Frame>)
    | DoCancel(id: int)
    | DoSwitch(id: int, on: bool, order: seq<Frame>)
    | DoDestroy(id: int, order: seq<Frame>)
    | DoComplete(ticket: nat, success: bool, order: seq<Frame>)
    | DoSetMaxRetired(most: nat)

  /** What the action is about is there. */
  ghost predicate Defined(site: Site, c: C, a: Action) {
    match a
    case DoAllocate(id, g, _) => id in c.records && GrantOk(site, g)
    case DoSwitch(id, _, _) => Switchable(site, c, id)
    case DoDestroy(id, _) => Destroyable(site, c, id)
    case DoComplete(t, _, _) => Completable(site, c, t)
    case _ => true
  }

  /** What the job queue and the hardware may do: give away free boards, and complete commands in order, frame by frame. */
  ghost predicate Allowed(site: Site, c: C, a: Action) {
    && Defined(site, c, a)
    && match a
       case DoAllocate(id, g, order) => Grantable(site, c, id, g) && Ordering(order, FramesOf(site, g))
       case DoCancel(id) => id in c.live && id in c.queue && c.queue[id].None?
       case DoSwitch(id, _, order) => OrderFor(site, c, id, order)
       case DoDestroy(id, order) => OrderFor(site, c, id, order)
       case DoComplete(t, _, order) => FirstInLine(c, t) && OrderFor(site, c, c.bmp[t].job, order)
       case _ => true
  }

  ghost function Next(site: Site, c: C, a: Action): C
    requires Defined(site, c, a)
  {
    match a
    case DoCreate => Create(c)
    case DoCreateRefused => CreateRefused(c)
    case DoAllocate(id, g, order) => Allocate(site, c, id, g, order)
    case DoCancel(id) => Cancel(c, id)
    case DoSwitch(id, on, order) => SwitchJob(site, c, id, on, order)
    case DoDestroy(id, order) => Destroy(site, c, id, order)
    case DoComplete(t, success, order) => Complete(site, c, t, success, order)
    case DoSetMaxRetired(most) => SetMaxRetired(c, most)
  }

  lemma NextKeeps(site: Site, c: C, a: Action)
    requires Inv(site, c) && Allowed(site, c, a)
    ensures Inv(site, Next(site, c, a))
  {
    match a
    case DoCreate =>
      IdsBelow(site, c);
      CreateKeeps(site, c);
    case DoCreateRefused =>
      IdsBelow(site, c);
      CreateRefusedKeeps(site, c);
    case DoAllocate(id, g, order) => AllocateKeeps(site, c, id, g, order);
    case DoCancel(id) => CancelKeeps(site, c, id);
    case DoSwitch(id, on, order) => SwitchJobKeeps(site, c, id, on, order);
    case DoDestroy(id, order) => DestroyKeeps(site, c, id, order);
    case DoComplete(t, success, order) => CompleteKeeps(site, c, t, success, order);
    case DoSetMaxRetired(most) => SetMaxRetiredKeeps(site, c, most);
  }

  ghost predicate Run(site: Site, firstId: int, most: nat, actions: seq<Action>, states: seq<C>) {
    && SiteOk(site) && |states| == |actions| + 1 && states[0] == Initial(firstId, most)
    && forall i :: 0 <= i < |actions| ==>
         Allowed(site, states[i], actions[i]) && states[i + 1] == Next(site, states[i], actions[i])
  }

  lemma {:induction false} RunKeeps(site: Site, firstId: int, most: nat, actions: seq<Action>, states: seq<C>, i: nat)
    requires Run(site, firstId, most, actions, states) && i < |states|
    ensures Inv(site, states[i])
  {
    if i == 0 {
      InitialHolds(site, firstId, most);
    } else {
      RunKeeps(site, firstId, most, actions, states, i - 1);
      NextKeeps(site, states[i - 1], actions[i - 1]);
    }
  }

  // ----- counters and states

  /**
   * At every point of every run, a job's counter is the number of its commands that are queued or being carried
   * out, and a job with boards is in state power exactly while there are any.
   */
  lemma CounterExact(site: Site, firstId: int, most: nat, actions: seq<Action>, states: seq<C>, i: nat, id: int)
    requires Run(site, firstId, most, actions, states) && i < |states| && id in states[i].records
    ensures var c := states[i]; var rec := c.records[id];
            && rec.requestsUntilReady == |Outstanding(c.bmp, id)|
            && (rec.grant.Some? ==> (rec.state == Power <==> Outstanding(c.bmp, id) != {}))
            && (rec.grant.Some? ==> (rec.state == Ready <==> Outstanding(c.bmp, id) == {}))
            && (rec.grant.None? ==> rec.state == Queued && Outstanding(c.bmp, id) == {})
  {
    RunKeeps(site, firstId, most, actions, states, i);
    assert JobOk(site, states[i], id);
  }

  /** A command's job still has its boards, and those it acts on are among them. */
  lemma TargetsAreHeld(site: Site, c: C, t: nat)
    requires Inv(site, c) && t in c.bmp
    ensures var r := c.bmp[t];
            && r.job in c.queue && c.queue[r.job].Some? && c.queue[r.job].value.machine == r.machine
            && Targets(site, r) <= c.queue[r.job].value.boards && Targets(site, r) != {}
  {
    var r := c.bmp[t];
    assert RequestOk(site, c.records, r) && JobOk(site, c, r.job);
    assert t in Outstanding(c.bmp, r.job);
    var g := c.records[r.job].grant.value;
    var layout := site[g.machine];
    forall b | b in Targets(site, r)
      ensures b in g.boards
    {
      var other :| other in g.boards && layout[other].Rack() == r.frame && layout[other].board == layout[b].board;
      assert layout[other] == layout[b];
    }
    var b :| b in g.boards && layout[b].Rack() == r.frame;
    assert b in Targets(site, r);
  }

  /**
   * Quiescence before reuse: whenever the job queue gives boards to a job, no command of any job that is queued
   * or being carried out acts on one of them.
   */
  lemma QuietBeforeReuse(
    site: Site, firstId: int, most: nat, actions: seq<Action>, states: seq<C>, i: nat, t: nat)
    requires Run(site, firstId, most, actions, states) && i < |actions| && actions[i].DoAllocate?
    requires t in states[i].bmp && states[i].bmp[t].machine == actions[i].grant.machine
    ensures Targets(site, states[i].bmp[t]) !! actions[i].grant.boards
  {
    RunKeeps(site, firstId, most, actions, states, i);
    TargetsAreHeld(site, states[i], t);
    assert Allowed(site, states[i], actions[i]);
  }

  // ----- what is sent

  /** The commands with tickets from first up to next, all of them outstanding. */
  datatype Sending = Sending(bmp: map<nat, Request>, first: nat, next: nat) {
    predicate Has(t: nat) {
      first <= t < next && t in bmp
    }
  }

  function SentSince(c: C, c': C): Sending {
    Sending(c'.bmp, c.nextTicket, c'.nextTicket)
  }

  /** The request tells the link of this port to be enabled, or disabled. */
  predicate Tells(site: Site, r: Request, p: Port, enable: bool) {
    && r.machine in site && p.0 in site[r.machine] && site[r.machine][p.0].Rack() == r.frame
    && (site[r.machine][p.0].board, p.1, enable) in r.links
  }

  /** The request is about the power of this board. */
  predicate Powers(site: Site, r: Request, b: Board) {
    && r.machine in site && b in site[r.machine] && site[r.machine][b].Rack() == r.frame
    && site[r.machine][b].board in r.boards
  }

  ghost predicate ForBoard(site: Site, sent: Sending, b: Board) {
    exists t :: sent.Has(t) && Powers(site, sent.bmp[t], b)
  }

  ghost predicate ForLink(site: Site, sent: Sending, p: Port, enable: bool) {
    exists t :: sent.Has(t) && Tells(site, sent.bmp[t], p, enable)
  }

  /**
   * One request has been sent to each frame of a job's boards, and none to any other. Together they are for exactly its
   * boards, and for exactly the links around it, if it is powered on; those are disabled, and no link is enabled.
   */
  ghost predicate SwitchesAll(site: Site, sent: Sending, id: int, g: Grant, power: bool)
    requires GrantOk(site, g)
  {
    && (forall t :: sent.Has(t) ==>
          sent.bmp[t].job == id && sent.bmp[t].machine == g.machine && sent.bmp[t].power == power
          && sent.bmp[t].frame in FramesOf(site, g))
    && (forall t, u :: sent.Has(t) && sent.Has(u) && t != u ==> sent.bmp[t].frame != sent.bmp[u].frame)
    && (forall b {:trigger ForBoard(site, sent, b)} :: ForBoard(site, sent, b) <==> b in g.boards)
    && (forall p, enable {:trigger ForLink(site, sent, p, enable)} ::
          ForLink(site, sent, p, enable) <==> power && !enable && p in g.periphery)
  }

  /** The request with this ticket is the job's, for the frame whose turn it was. */
  ghost predicate Slot(
    site: Site, records: map<int, JobRecord>, sent: Sending, id: int, order: seq<Frame>, power: bool, t: nat)
    requires sent.next == sent.first + |order| && sent.first <= t < sent.next
  {
    && t in sent.bmp && RequestOk(site, records, sent.bmp[t]) && sent.bmp[t].job == id && sent.bmp[t].power == power
    && sent.bmp[t].frame == order[t - sent.first]
  }

  /** The requests are those for the frames of a job's boards, in this order. */
  ghost predicate InOrder(
    site: Site, records: map<int, JobRecord>, sent: Sending, id: int, g: Grant, order: seq<Frame>, power: bool)
  {
    && SiteOk(site) && GrantOk(site, g) && Ordering(order, FramesOf(site, g)) && id in records && records[id].grant == Some(g)
    && sent.next == sent.first + |order|
    && forall t: nat {:trigger Slot(site, records, sent, id, order, power, t)} ::
         sent.first <= t < sent.next ==> Slot(site, records, sent, id, order, power, t)
  }

  /** The request that was sent to a frame. */
  lemma SentToFrame(
    site: Site, records: map<int, JobRecord>, sent: Sending, id: int, g: Grant, order: seq<Frame>, power: bool, f: Frame)
    returns (t: nat)
    requires InOrder(site, records, sent, id, g, order, power) && f in FramesOf(site, g)
    ensures sent.Has(t) && sent.bmp[t].frame == f && RequestOk(site, records, sent.bmp[t]) && sent.bmp[t].job == id
    ensures sent.bmp[t].power == power
  {
    var k :| 0 <= k < |order| && order[k] == f;
    t := sent.first + k;
    assert Slot(site, records, sent, id, order, power, t);
  }

  lemma SentToBoard(
    site: Site, records: map<int, JobRecord>, sent: Sending, id: int, g: Grant, order: seq<Frame>, power: bool, b: Board)
    requires InOrder(site, records, sent, id, g, order, power)
    ensures ForBoard(site, sent, b) <==> b in g.boards
  {
    if ForBoard(site, sent, b) {
      var t: nat :| sent.Has(t) && Powers(site, sent.bmp[t], b);
      assert Slot(site, records, sent, id, order, power, t);
      TargetsOf(site, records, sent.bmp[t], b);
    }
    if b in g.boards {
      var t := SentToFrame(site, records, sent, id, g, order, power, site[g.machine][b].Rack());
      TargetsOf(site, records, sent.bmp[t], b);
      assert Powers(site, sent.bmp[t], b);
    }
  }

  lemma SentToLink(
    site: Site, records: map<int, JobRecord>, sent: Sending, id: int, g: Grant, order: seq<Frame>, power: bool, p: Port,
    enable: bool)
    requires InOrder(site, records, sent, id, g, order, power)
    ensures ForLink(site, sent, p, enable) <==> power && !enable && p in g.periphery
  {
    if ForLink(site, sent, p, enable) {
      var t: nat :| sent.Has(t) && Tells(site, sent.bmp[t], p, enable);
      assert Slot(site, records, sent, id, order, power, t);
      TellsOnly(site, records, sent.bmp[t], p, enable);
    }
    if power && !enable && p in g.periphery {
      var t := SentToFrame(site, records, sent, id, g, order, power, site[g.machine][p.0].Rack());
      assert Tells(site, sent.bmp[t], p, false);
    }
  }

  lemma TellsOnly(site: Site, records: map<int, JobRecord>, r: Request, p: Port, enable: bool)
    requires SiteOk(site) && RequestOk(site, records, r) && Tells(site, r, p, enable)
    ensures r.power && !enable && p in records[r.job].grant.value.periphery
  {
    var l := (site[r.machine][p.0].board, p.1, enable);
    assert p == (p.0, p.1) && p in Addressed(site, r) by {
      assert l in r.links;
    }
    AddressedOf(site, records, r, p);
  }

  lemma SentOnce(
    site: Site, records: map<int, JobRecord>, sent: Sending, id: int, g: Grant, order: seq<Frame>, power: bool, t: nat, u: nat)
    requires InOrder(site, records, sent, id, g, order, power) && sent.Has(t) && sent.Has(u)
    ensures sent.bmp[t].job == id && sent.bmp[t].machine == g.machine && sent.bmp[t].power == power
    ensures sent.bmp[t].frame in FramesOf(site, g)
    ensures t != u ==> sent.bmp[t].frame != sent.bmp[u].frame
  {
    assert Slot(site, records, sent, id, order, power, t) && Slot(site, records, sent, id, order, power, u);
  }

  lemma SentSwitches(
    site: Site, records: map<int, JobRecord>, sent: Sending, id: int, g: Grant, order: seq<Frame>, power: bool)
    requires InOrder(site, records, sent, id, g, order, power)
    ensures SwitchesAll(site, sent, id, g, power)
  {
    forall t: nat, u: nat | sent.Has(t) && sent.Has(u)
      ensures sent.bmp[t].job == id && sent.bmp[t].machine == g.machine && sent.bmp[t].power == power
      ensures sent.bmp[t].frame in FramesOf(site, g)
      ensures t != u ==> sent.bmp[t].frame != sent.bmp[u].frame
    {
      SentOnce(site, records, sent, id, g, order, power, t, u);
    }
    forall b
      ensures ForBoard(site, sent, b) <==> b in g.boards
    {
      SentToBoard(site, records, sent, id, g, order, power, b);
    }
    forall p, enable
      ensures ForLink(site, sent, p, enable) <==> power && !enable && p in g.periphery
    {
      SentToLink(site, records, sent, id, g, order, power, p, enable);
    }
  }

  lemma SetPowerSlot(site: Site, c: C, id: int, power: bool, order: seq<Frame>, t: nat)
    requires SiteOk(site) && id in c.records && c.records[id].grant.Some? && GrantOk(site, c.records[id].grant.value)
    requires RequestsOk(site, c) && Ordering(order, FramesOf(site, c.records[id].grant.value))
    requires c.nextTicket <= t < c.nextTicket + |order|
    ensures var c' := SetPower(site, c, id, power, LinksWith(power), order);
            Slot(site, c'.records, SentSince(c, c'), id, order, power, t)
  {
    var c' := SetPower(site, c, id, power, LinksWith(power), order);
    SetPowerSends(site, c, id, power, LinksWith(power), order);
    SetPowerRequests(site, c, id, power, LinksWith(power), order);
    assert c'.bmp[t] == RequestFor(site, id, c.records[id].grant.value, order[t - c.nextTicket], power, LinksWith(power));
  }

  lemma SetPowerInOrder(site: Site, c: C, id: int, power: bool, order: seq<Frame>)
    requires SiteOk(site) && id in c.records && c.records[id].grant.Some? && GrantOk(site, c.records[id].grant.value)
    requires RequestsOk(site, c) && Ordering(order, FramesOf(site, c.records[id].grant.value))
    ensures var c' := SetPower(site, c, id, power, LinksWith(power), order);
            InOrder(site, c'.records, SentSince(c, c'), id, c.records[id].grant.value, order, power)
  {
    var c' := SetPower(site, c, id, power, LinksWith(power), order);
    forall t: nat | c.nextTicket <= t < c.nextTicket + |order|
      ensures Slot(site, c'.records, SentSince(c, c'), id, order, power, t)
    {
      SetPowerSlot(site, c, id, power, order, t);
    }
  }

  lemma SetPowerSwitches(site: Site, c: C, id: int, power: bool, order: seq<Frame>)
    requires SiteOk(site) && id in c.records && c.records[id].grant.Some? && GrantOk(site, c.records[id].grant.value)
    requires RequestsOk(site, c) && Ordering(order, FramesOf(site, c.records[id].grant.value))
    ensures var c' := SetPower(site, c, id, power, LinksWith(power), order);
            SwitchesAll(site, SentSince(c, c'), id, c.records[id].grant.value, power)
  {
    var c' := SetPower(site, c, id, power, LinksWith(power), order);
    SetPowerInOrder(site, c, id, power, order);
    SentSwitches(site, c'.records, SentSince(c, c'), id, c.records[id].grant.value, order, power);
  }

  /** A job that is given boards has them all powered on, and exactly the links around it disabled. */
  lemma AllocationSwitchesOn(site: Site, c: C, id: int, g: Grant, order: seq<Frame>)
    requires Inv(site, c) && Allowed(site, c, DoAllocate(id, g, order))
    ensures SwitchesAll(site, SentSince(c, Next(site, c, DoAllocate(id, g, order))), id, g, true)
  {
    assert JobOk(site, c, id);
    NoRequests(site, c, id);
    var c1 := c.(queue := c.queue[id := Some(g)], records := c.records[id := c.records[id].(grant := Some(g))]);
    RequestsStay(site, c, c1);
    SetPowerSwitches(site, c1, id, true, order);
  }

  /** A live job with boards is switched as its user says; switching on disables the links around it again. */
  lemma UsersSwitch(site: Site, c: C, id: int, on: bool, order: seq<Frame>)
    requires Inv(site, c) && Allowed(site, c, DoSwitch(id, on, order)) && id in c.live && c.records[id].grant.Some?
    ensures GrantOk(site, c.records[id].grant.value)
    ensures SwitchesAll(site, SentSince(c, Next(site, c, DoSwitch(id, on, order))), id, c.records[id].grant.value, on)
  {
    assert JobOk(site, c, id);
    SetPowerSwitches(site, c, id, on, order);
  }

  /** A live job with boards that is destroyed has them all powered off, and no link is touched. */
  lemma DestructionSwitchesOff(site: Site, c: C, id: int, order: seq<Frame>)
    requires Inv(site, c) && Allowed(site, c, DoDestroy(id, order)) && id in c.live && c.records[id].grant.Some?
    ensures GrantOk(site, c.records[id].grant.value)
    ensures SwitchesAll(site, SentSince(c, Next(site, c, DoDestroy(id, order))), id, c.records[id].grant.value, false)
  {
    assert JobOk(site, c, id);
    RequestsStay(site, c, Retire(c, id));
    SetPowerSwitches(site, Retire(c, id), id, false, order);
  }

  // ----- the end of a job

  /** A job of the queue that is destroyed, or cancelled by the queue, is live no more, and is the last to be remembered. */
  lemma DestructionRetires(site: Site, c: C, id: int, a: Action)
    requires Inv(site, c) && Allowed(site, c, a) && id in c.live && id in c.queue
    requires a == DoCancel(id) || (a.DoDestroy? && a.id == id)
    ensures var c' := Next(site, c, a);
            && c'.live == c.live - {id} && c'.destroyed == c.destroyed + [id]
            && (c.maxRetired > 0 ==> c'.retired != [] && c'.retired[|c'.retired| - 1] == id)
            && (c.records[id].grant.None? <==> id !in c'.queue)
  {
    assert JobOk(site, c, id);
  }

  /** A command that fails destroys its job, if it is live; one that succeeds destroys nobody. */
  lemma FailureDestroys(site: Site, c: C, t: nat, success: bool, order: seq<Frame>)
    requires Inv(site, c) && Allowed(site, c, DoComplete(t, success, order))
    ensures Next(site, c, DoComplete(t, success, order)).live == if success then c.live else c.live - {c.bmp[t].job}
  {
    assert RequestOk(site, c.records, c.bmp[t]) && JobOk(site, c, c.bmp[t].job);
  }

  // ----- isolation

  /**
   * At every point of every run, a live job that is ready has every board in the power state its user asked for; and if
   * that is on, every link around the job is disabled. No command for it has failed, for that would have destroyed it.
   */
  lemma ReadyMeansIsolated(
    site: Site, firstId: int, most: nat, actions: seq<Action>, states: seq<C>, i: nat, id: int)
    requires Run(site, firstId, most, actions, states) && i < |states|
    requires id in states[i].live && id in states[i].records && states[i].records[id].state == Ready
    ensures Isolated(states[i], id)
  {
    RunKeeps(site, firstId, most, actions, states, i);
    ReadyIsKnown(site, states[i], id);
  }

  /** All boards are known to be on or off, as they should be, and if on all links around the job to be disabled. */
  ghost predicate Isolated(c: C, id: int)
    requires id in c.records
  {
    var rec := c.records[id];
    && rec.grant.Some? && rec.power.Some?
    && var g := rec.grant.value;
       && (forall b :: b in g.boards ==> (g.machine, b) in c.lit && c.lit[(g.machine, b)] == rec.power.value)
       && (rec.power.value ==> forall p :: p in g.periphery ==> (g.machine, p) in c.wired && !c.wired[(g.machine, p)])
  }

  lemma ReadyIsKnown(site: Site, c: C, id: int)
    requires Inv(site, c) && id in c.live && id in c.records && c.records[id].state == Ready
    ensures Isolated(c, id)
  {
    assert JobOk(site, c, id);
    var g, power := c.records[id].grant.value, c.records[id].power.value;
    forall f | f in FramesOf(site, g)
      ensures (id, f) in c.done && c.done[(id, f)] == Report(power, true)
    {
      LastReport(site, c, id, g, power, f);
    }
    assert c.queue[id] == Some(g);
    forall b | b in g.boards
      ensures (g.machine, b) in c.lit && c.lit[(g.machine, b)] == power
    {
      assert site[g.machine][b].Rack() in FramesOf(site, g);
      assert BoardKnown(c.done, c.lit, id, (g.machine, b), site[g.machine][b].Rack());
    }
    forall p | p in g.periphery && power
      ensures (g.machine, p) in c.wired && !c.wired[(g.machine, p)]
    {
      assert site[g.machine][p.0].Rack() in FramesOf(site, g);
      assert WireKnown(c.done, c.wired, id, (g.machine, p), site[g.machine][p.0].Rack());
    }
  }

  lemma LastReport(site: Site, c: C, id: int, g: Grant, power: bool, f: Frame)
    requires JobOk(site, c, id) && c.records[id].grant == Some(g) && c.records[id].power == Some(power) && GrantOk(site, g)
    requires c.records[id].requestsUntilReady == 0 && id in c.live && LiveOk(c.live, c.done) && f in FramesOf(site, g)
    ensures (id, f) in c.done && c.done[(id, f)] == Report(power, true)
  {
    assert Follows(c, id, f, power);
    assert Outstanding(c.bmp, id) == {};
    forall t | t in c.bmp
      ensures !For(c.bmp[t], id, f)
    {
      assert c.bmp[t].job == id ==> t in Outstanding(c.bmp, id);
    }
  }

  // ----- jobs that the queue refuses

  /**
   * A job that the job queue refuses, because both a machine and tags are asked for, is a live job for the controller
   * but unknown to the queue, and stays so for ever; no other job ever is.
   */
  lemma RefusedExactly(site: Site, c: C, a: Action, id: int)
    requires Inv(site, c) && Allowed(site, c, a)
    ensures Refused(Next(site, c, a), id) <==> Refused(c, id) || (a.DoCreateRefused? && id == c.nextId)
  {
    IdsBelow(site, c);
    if id in c.records {
      assert JobOk(site, c, id);
    }
    if a.DoComplete? {
      CompletionConcerns(site, c, a.ticket, a.success, a.order, id);
    }
  }

  /** A completion changes the standing of no job but that of the command, which is known to the queue. */
  lemma CompletionConcerns(site: Site, c: C, t: nat, success: bool, order: seq<Frame>, id: int)
    requires Inv(site, c) && Allowed(site, c, DoComplete(t, success, order))
    ensures Refused(Complete(site, c, t, success, order), id) <==> Refused(c, id)
  {
    var job := c.bmp[t].job;
    assert RequestOk(site, c.records, c.bmp[t]) && JobOk(site, c, job);
    assert t in Outstanding(c.bmp, job);
  }

  // ----- the return of boards

  /** The job has boards, and this action takes them from it. */
  ghost predicate GivesBack(site: Site, c: C, a: Action, id: int) {
    Allowed(site, c, a) && id in c.queue && c.queue[id].Some? && id !in Next(site, c, a).queue
  }

  /** A failed command destroys its job, whose boards are still to be powered off. */
  lemma FailureKeepsBoards(site: Site, c: C, t: nat, order: seq<Frame>)
    requires Inv(site, c) && Allowed(site, c, DoComplete(t, false, order)) && c.bmp[t].job in c.live
    ensures c.bmp[t].job in Complete(site, c, t, false, order).queue
  {
    var job := c.bmp[t].job;
    assert RequestOk(site, c.records, c.bmp[t]) && JobOk(site, c, job);
    RetireKeeps(site, c, job);
    SetPowerSends(site, Retire(c, job), job, false, None, order);
    FramesNotEmpty(site, c.records[job].grant.value, order);
    assert t in Outstanding(c.bmp, job);
  }

  lemma CompletionGivesBack(site: Site, c: C, t: nat, success: bool, order: seq<Frame>, id: int)
    requires Inv(site, c) && GivesBack(site, c, DoComplete(t, success, order), id)
    ensures c.bmp[t].job == id && id in c.retired && Outstanding(c.bmp, id) == {t}
  {
    var job := c.bmp[t].job;
    assert RequestOk(site, c.records, c.bmp[t]) && JobOk(site, c, job);
    if !success && job in c.live {
      FailureKeepsBoards(site, c, t, order);
    }
    assert id == job;
    assert t in Outstanding(c.bmp, id);
    LoneTicket(Outstanding(c.bmp, id), t);
  }

  lemma LoneTicket(s: set<nat>, t: nat)
    requires t in s && |s| == 1
    ensures s == {t}
  {
    assert |s - {t}| == 0;
    assert s == s - {t} + {t};
  }

  /** The board is known to be off. */
  predicate KnownOff(c: C, machine: string, b: Board) {
    (machine, b) in c.lit && !c.lit[(machine, b)]
  }

  /**
   * Boards go back to the job queue only when the last command of their destroyed job ends. The last command for each
   * frame was then to power off; a board is known to be off if and only if the one for its frame succeeded, and no
   * board is known to be on. A command that failed is not repeated: see FailedPowerOffGivesBack.
   */
  lemma PowerOffBeforeReturn(site: Site, c: C, a: Action, id: int)
    requires Inv(site, c) && GivesBack(site, c, a, id)
    ensures a.DoComplete? && id in c.retired && id in c.records && GrantOk(site, c.queue[id].value)
    ensures var c' := Next(site, c, a); var g := c.queue[id].value;
            && Outstanding(c'.bmp, id) == {}
            && (forall f :: f in FramesOf(site, g) ==> (id, f) in c'.done && !c'.done[(id, f)].power)
            && (forall b :: b in g.boards ==>
                  && (id, site[g.machine][b].Rack()) in c'.done
                  && (KnownOff(c', g.machine, b) <==> c'.done[(id, site[g.machine][b].Rack())].success)
                  && ((g.machine, b) in c'.lit ==> !c'.lit[(g.machine, b)]))
  {
    assert JobOk(site, c, id);
    var g := c.queue[id].value;
    var c' := Next(site, c, a);
    NextKeeps(site, c, a);
    assert a.DoComplete?;
    CompletionGivesBack(site, c, a.ticket, a.success, a.order, id);
    LastReports(site, c', id, g);
    forall b | b in g.boards
      ensures var f := site[g.machine][b].Rack();
              (id, f) in c'.done && BoardKnown(c'.done, c'.lit, id, (g.machine, b), f)
    {
      assert site[g.machine][b].Rack() in FramesOf(site, g);
      KnownAtReturn(site, c, a, id, b);
    }
  }

  /** With no command outstanding, the last command of a job switched off was to switch it off, on every frame. */
  lemma LastReports(site: Site, c: C, id: int, g: Grant)
    requires JobOk(site, c, id) && c.records[id].grant == Some(g) && GrantOk(site, g)
    requires c.records[id].power == Some(false) && Outstanding(c.bmp, id) == {}
    ensures forall f :: f in FramesOf(site, g) ==> (id, f) in c.done && !c.done[(id, f)].power
  {
    forall f | f in FramesOf(site, g)
      ensures (id, f) in c.done && !c.done[(id, f)].power
    {
      assert Follows(c, id, f, false);
      forall t | t in c.bmp
        ensures !For(c.bmp[t], id, f)
      {
        assert c.bmp[t].job == id ==> t in Outstanding(c.bmp, id);
      }
    }
  }

  lemma KnownAtReturn(site: Site, c: C, a: Action, id: int, b: Board)
    requires Inv(site, c) && GivesBack(site, c, a, id) && a.DoComplete? && c.bmp[a.ticket].job == id
    requires id in c.retired && GrantOk(site, c.queue[id].value) && b in c.queue[id].value.boards
    ensures var c' := Next(site, c, a); var g := c.queue[id].value;
            BoardKnown(c'.done, c'.lit, id, (g.machine, b), site[g.machine][b].Rack())
  {
    var t := a.ticket;
    assert RequestOk(site, c.records, c.bmp[t]) && JobOk(site, c, id);
    assert Next(site, c, a) == CountDown(site, c, t, a.success);
    CountDownBoard(site, c, t, a.success, id, c.queue[id].value, b);
  }

  /**
   * When the last command of a destroyed job completes, its boards go back if and only if the controller still
   * remembers having destroyed it.
   */
  lemma ReturnedIfRemembered(site: Site, c: C, t: nat, success: bool, order: seq<Frame>, id: int)
    requires Inv(site, c) && Allowed(site, c, DoComplete(t, success, order)) && Outstanding(c.bmp, id) == {t}
    requires id in c.queue && id !in c.live
    ensures id in Complete(site, c, t, success, order).queue <==> id !in c.retired
  {
    assert t in Outstanding(c.bmp, id);
    assert JobOk(site, c, id);
  }

  /** Once all commands have completed, every destroyed job that is remembered has given back its boards. */
  lemma QuietMeansReturned(site: Site, c: C, id: int)
    requires Inv(site, c) && c.bmp == map[] && id in c.queue && id !in c.live
    ensures id !in c.retired
  {
    assert JobOk(site, c, id);
    assert Outstanding(c.bmp, id) == {};
  }

  /** As long as commands are outstanding, some command can complete. */
  lemma {:induction false} SomeCommandCompletes(c: C, t: nat) returns (first: nat)
    requires t in c.bmp
    ensures FirstInLine(c, first)
    decreases t
  {
    if FirstInLine(c, t) {
      first := t;
    } else {
      var u :| u in c.bmp && c.bmp[u].machine == c.bmp[t].machine && c.bmp[u].frame == c.bmp[t].frame && u < t;
      first := SomeCommandCompletes(c, u);
    }
  }

  // ----- commands run out

  /** The frames of the boards a job has been given. */
  function FramesGiven(site: Site, records: map<int, JobRecord>, id: int): set<Frame> {
    if id in records && records[id].grant.Some? && GrantOk(site, records[id].grant.value)
    then FramesOf(site, records[id].grant.value)
    else {}
  }

  /** The frames to which a power-off would be sent if all live jobs were destroyed. */
  function Offable(site: Site, live: set<int>, records: map<int, JobRecord>): set<(int, Frame)> {
    set id, f | id in live && f in FramesGiven(site, records, id) :: (id, f)
  }

  /** How many commands can still be completed before users do something: those sent, and those failures may cause. */
  function Load(site: Site, c: C): nat {
    |c.bmp| + |Offable(site, c.live, c.records)|
  }

  lemma PairsOf(id: int, order: seq<Frame>, frames: set<Frame>)
    requires Ordering(order, frames)
    ensures |set f | f in frames :: (id, f)| == |order|
    decreases |order|
  {
    var pairs := set f | f in frames :: (id, f);
    if order == [] {
      assert pairs == {};
    } else {
      var f, rest := order[|order| - 1], order[..|order| - 1];
      assert order == rest + [f];
      PairsOf(id, rest, frames - {f});
      var fewer := set g | g in frames - {f} :: (id, g);
      assert pairs == fewer + {(id, f)};
    }
  }

  /** What is offable depends on what jobs have been given, not on how they are doing. */
  lemma SameOffable(site: Site, live: set<int>, records: map<int, JobRecord>, id: int, rec: JobRecord)
    requires id in records && rec.grant == records[id].grant
    ensures Offable(site, live, records[id := rec]) == Offable(site, live, records)
  {
    assert forall other :: FramesGiven(site, records[id := rec], other) == FramesGiven(site, records, other);
  }

  lemma OffableWithout(site: Site, live: set<int>, records: map<int, JobRecord>, id: int, order: seq<Frame>)
    requires id in live && Ordering(order, FramesGiven(site, records, id))
    ensures |Offable(site, live, records)| == |Offable(site, live - {id}, records)| + |order|
  {
    var all, rest := Offable(site, live, records), Offable(site, live - {id}, records);
    var mine := set f | f in FramesGiven(site, records, id) :: (id, f);
    PairsOf(id, order, FramesGiven(site, records, id));
    assert all == rest + mine by {
      assert forall p :: p in all <==> p in rest || p in mine;
    }
    assert forall p :: p in rest ==> p !in mine;
    assert |rest + mine| == |rest| + |mine|;
  }

  /** Destroying a live job with boards sends one command to each of its frames, which then can be sent no power-off again. */
  lemma WithdrawLoad(site: Site, c: C, id: int, order: seq<Frame>)
    requires Inv(site, c) && id in c.live && id in c.records && c.records[id].grant.Some?
    requires GrantOk(site, c.records[id].grant.value) && Ordering(order, FramesOf(site, c.records[id].grant.value))
    ensures Load(site, Withdraw(site, c, id, order)) == Load(site, c)
  {
    var c' := Withdraw(site, c, id, order);
    TicketsBelow(site, c);
    SentSize(c.bmp, c.nextTicket, Batch(site, id, c.records[id].grant.value, order, false, None));
    SameOffable(site, c'.live, c.records, id, c'.records[id]);
    OffableWithout(site, c.live, c.records, id, order);
  }

  lemma {:induction false} SentSize(bmp: map<nat, Request>, n: nat, reqs: seq<Request>)
    requires forall t :: t in bmp ==> t < n
    ensures |Sent(bmp, n, reqs)| == |bmp| + |reqs|
    decreases |reqs|
  {
    if reqs != [] {
      assert bmp[n := reqs[0]].Keys == bmp.Keys + {n};
      SentSize(bmp[n := reqs[0]], n + 1, reqs[1..]);
    }
  }

  lemma CountDownLoad(site: Site, c: C, t: nat, success: bool)
    requires t in c.bmp && c.bmp[t].job in c.records
    ensures Load(site, CountDown(site, c, t, success)) == Load(site, c) - 1
  {
    var c' := CountDown(site, c, t, success);
    assert c.bmp.Keys == c'.bmp.Keys + {t};
    SameOffable(site, c.live, c.records, c.bmp[t].job, c'.records[c.bmp[t].job]);
  }

  /** Every completion, whether or not it succeeds, brings the controller one command nearer to rest. */
  lemma CompletionLowersLoad(site: Site, c: C, a: Action)
    requires Inv(site, c) && Allowed(site, c, a) && a.DoComplete?
    ensures Load(site, Next(site, c, a)) == Load(site, c) - 1
  {
    var id := c.bmp[a.ticket].job;
    assert RequestOk(site, c.records, c.bmp[a.ticket]) && JobOk(site, c, id);
    DestroyKeepsLine(site, c, a.ticket, a.order);
    if a.success {
      CountDownLoad(site, c, a.ticket, true);
    } else {
      if id in c.live {
        WithdrawLoad(site, c, id, a.order);
      }
      CountDownLoad(site, Destroy(site, c, id, a.order), a.ticket, false);
    }
  }

  /** Only completions happen, whatever their outcomes. */
  ghost predicate Completions(site: Site, actions: seq<Action>, states: seq<C>) {
    && |states| == |actions| + 1 && Inv(site, states[0])
    && forall i :: 0 <= i < |actions| ==>
         actions[i].DoComplete? && Allowed(site, states[i], actions[i]) && states[i + 1] == Next(site, states[i], actions[i])
  }

  lemma {:induction false} CompletionsCount(site: Site, actions: seq<Action>, states: seq<C>, i: nat)
    requires Completions(site, actions, states) && i < |states|
    ensures Inv(site, states[i]) && Load(site, states[i]) == Load(site, states[0]) - i
  {
    if i > 0 {
      CompletionsCount(site, actions, states, i - 1);
      NextKeeps(site, states[i - 1], actions[i - 1]);
      CompletionLowersLoad(site, states[i - 1], actions[i - 1]);
    }
  }

  /**
   * Commands run out: if nothing but completions happens, there are no more of them than the load at the start; as
   * long as a command is outstanding another can complete; and when none is, every remembered destroyed job has
   * given back its boards.
   */
  lemma CommandsRunOut(site: Site, actions: seq<Action>, states: seq<C>)
    requires Completions(site, actions, states)
    ensures |actions| <= Load(site, states[0])
    ensures var c := states[|actions|];
            if c.bmp == map[] then forall id :: id in c.queue && id !in c.live ==> id !in c.retired
            else exists t, order :: Allowed(site, c, DoComplete(t, true, order))
  {
    CompletionsCount(site, actions, states, |actions|);
    var c := states[|actions|];
    if c.bmp == map[] {
      forall id | id in c.queue && id !in c.live
        ensures id !in c.retired
      {
        QuietMeansReturned(site, c, id);
      }
    } else {
      var some :| some in c.bmp;
      var t := SomeCommandCompletes(c, some);
      CanComplete(site, c, t);
    }
  }

  lemma CanComplete(site: Site, c: C, t: nat)
    requires Inv(site, c) && FirstInLine(c, t)
    ensures exists order :: Allowed(site, c, DoComplete(t, true, order))
  {
    var id := c.bmp[t].job;
    assert RequestOk(site, c.records, c.bmp[t]);
    CanBeDestroyed(site, c, id);
    DestroyKeepsLine(site, c, t, []);
    var order := InSomeOrder(FramesOf(site, c.records[id].grant.value));
    assert Allowed(site, c, DoComplete(t, true, order));
  }

  lemma {:induction false} InSomeOrder(frames: set<Frame>) returns (order: seq<Frame>)
    ensures Ordering(order, frames)
    decreases frames
  {
    order := [];
    if frames != {} {
      var f :| f in frames;
      order := InSomeOrder(frames - {f});
      order := order + [f];
    }
  }

  /** What the controller remembers of destroyed jobs, besides the history of all of them. */
  function Memory(c: C): (seq<int>, nat, seq<int>) {
    (c.retired, c.maxRetired, c.destroyed)
  }

  lemma DestroyMemory(site: Site, c: C, id: int, order: seq<Frame>)
    requires Destroyable(site, c, id)
    ensures Memory(Destroy(site, c, id, order)) == if id in c.live && id in c.queue then Memory(Retire(c, id)) else Memory(c)
  {
  }

  /** A step other than a change of the limit destroys at most one job. */
  lemma StepMemory(site: Site, c: C, a: Action) returns (id: int)
    requires Allowed(site, c, a) && !a.DoSetMaxRetired?
    ensures Memory(Next(site, c, a)) == Memory(c) || (id in c.live && Memory(Next(site, c, a)) == Memory(Retire(c, id)))
    ensures Next(site, c, a).live <= c.live + {c.nextId}
  {
    id := 0;
    match a
    case DoCreate =>
    case DoCreateRefused =>
    case DoAllocate(_, _, _) =>
    case DoCancel(job) => id := job;
    case DoSwitch(_, _, _) =>
    case DoDestroy(job, order) =>
      id := job;
      DestroyMemory(site, c, job, order);
    case DoComplete(t, success, order) =>
      id := c.bmp[t].job;
      DestroyMemory(site, c, id, order);
  }

  /** Changing the limit forgets no more jobs than it must, the oldest first. */
  lemma LimitChanges(c: C, most: nat)
    ensures var c' := SetMaxRetired(c, most);
            && c'.maxRetired == most && |c'.retired| == Least(|c.retired|, most)
            && (forall k :: 0 <= k < |c'.retired| ==> c'.retired[k] == c.retired[|c.retired| - |c'.retired| + k])
            && c' == c.(maxRetired := c'.maxRetired, retired := c'.retired)
  {
  }

  /** A destroyed job that has been forgotten is not remembered again. */
  lemma StaysForgotten(site: Site, c: C, a: Action, id: int)
    requires Inv(site, c) && Allowed(site, c, a) && id in c.records && id !in c.live && id !in c.retired
    ensures id !in Next(site, c, a).live && id !in Next(site, c, a).retired
  {
    IdsBelow(site, c);
    var s := c.retired;
    if a.DoSetMaxRetired? {
      assert id !in s[|s| - Least(|s|, a.most)..];
    } else {
      var other := StepMemory(site, c, a);
      assert id !in (s + [other])[1..] || other == id;
    }
  }

  /** A destroyed job that has been forgotten keeps its boards for ever. */
  lemma ForgottenKeepsBoards(site: Site, c: C, a: Action, id: int)
    requires Inv(site, c) && Allowed(site, c, a)
    requires id in c.queue && id !in c.live && id !in c.retired
    ensures var c' := Next(site, c, a); id in c'.queue && id !in c'.live && id !in c'.retired
  {
    assert JobOk(site, c, id);
    StaysForgotten(site, c, a, id);
    if id !in Next(site, c, a).queue {
      assert GivesBack(site, c, a, id);
      PowerOffBeforeReturn(site, c, a, id);
    }
  }

  // ----- how long a destroyed job is remembered

  ghost predicate FixedLimit(actions: seq<Action>) {
    forall i :: 0 <= i < |actions| ==> !actions[i].DoSetMaxRetired?
  }

  function Least(a: int, b: int): int {
    if a <= b then a else b
  }

  lemma {:induction false} LimitReached(site: Site, firstId: int, most: nat, actions: seq<Action>, states: seq<C>, i: nat)
    requires Run(site, firstId, most, actions, states) && FixedLimit(actions) && i < |states|
    ensures states[i].maxRetired == most && |states[i].retired| == Least(|states[i].destroyed|, most)
  {
    if i > 0 {
      LimitReached(site, firstId, most, actions, states, i - 1);
      var id := StepMemory(site, states[i - 1], actions[i - 1]);
      RetireLength(states[i - 1], id);
      assert Memory(states[i]) == Memory(states[i - 1]) || Memory(states[i]) == Memory(Retire(states[i - 1], id));
    }
  }

  lemma RetireLength(c: C, id: int)
    requires |c.retired| == Least(|c.destroyed|, c.maxRetired)
    ensures |Retire(c, id).retired| == Least(|c.destroyed| + 1, c.maxRetired)
  {
  }

  /** With a fixed limit, a destroyed job is remembered if and only if fewer jobs than the limit were destroyed after it. */
  lemma RememberedExactly(
    site: Site, firstId: int, most: nat, actions: seq<Action>, states: seq<C>, i: nat, k: nat)
    requires Run(site, firstId, most, actions, states) && FixedLimit(actions) && i < |states|
    requires k < |states[i].destroyed|
    ensures states[i].destroyed[k] in states[i].retired <==> |states[i].destroyed| - 1 - k < most
  {
    RunKeeps(site, firstId, most, actions, states, i);
    LimitReached(site, firstId, most, actions, states, i);
    var c := states[i];
    var first := |c.destroyed| - |c.retired|;
    assert forall j :: 0 <= j < |c.retired| ==> c.retired[j] == c.destroyed[first + j];
    if k >= first {
      assert c.retired[k - first] == c.destroyed[k];
    }
  }

  /**
   * In a run with a fixed limit, when the last command of a destroyed job ends, its boards go back if and only if
   * fewer jobs than the limit have been destroyed since.
   */
  lemma ReturnedIfFewDestroyed(
    site: Site, firstId: int, most: nat, actions: seq<Action>, states: seq<C>, i: nat, id: int) returns (k: nat)
    requires Run(site, firstId, most, actions, states) && FixedLimit(actions) && i < |actions|
    requires actions[i].DoComplete? && Outstanding(states[i].bmp, id) == {actions[i].ticket}
    requires id in states[i].queue && id !in states[i].live
    ensures k < |states[i].destroyed| && states[i].destroyed[k] == id
    ensures id !in states[i + 1].queue <==> |states[i].destroyed| - 1 - k < most
  {
    RunKeeps(site, firstId, most, actions, states, i);
    var a := actions[i];
    assert JobOk(site, states[i], id);
    k :| 0 <= k < |states[i].destroyed| && states[i].destroyed[k] == id;
    RememberedExactly(site, firstId, most, actions, states, i, k);
    ReturnedIfRemembered(site, states[i], a.ticket, a.success, a.order, id);
  }

  // ----- two runs

  const RACK: Frame := (0, 0)

  function OneBoard(): Site {
    map["m" := map[Board(0, 0, 0) := Location(0, 0, 0)]]
  }

  function WholeMachine(): Grant {
    Grant("m", {Board(0, 0, 0)}, {})
  }

  /** One job is created, given the only board, powered on, destroyed, and its power-off ends in success or failure. */
  function ShortLife(success: bool): seq<Action> {
    [DoCreate, DoAllocate(1, WholeMachine(), [RACK]), DoComplete(0, true, [RACK]), DoDestroy(1, [RACK]),
     DoComplete(1, success, [RACK])]
  }

  function Command(ticket: nat, power: bool): map<nat, Request> {
    map[ticket := Request(1, "m", RACK, power, {0}, {})]
  }

  function Record(state: JobState, power: Option<bool>, n: int): map<int, JobRecord> {
    map[1 := JobRecord(state, power, if power.Some? then Some(WholeMachine()) else None, n)]
  }

  /** The states of that run, for any limit on the destroyed jobs that are remembered. */
  function ShortLifeStates(most: nat, success: bool): seq<C> {
    var held, key := map[1 := Some(WholeMachine())], ("m", Board(0, 0, 0));
    var retired := if most == 0 then [] else [1];
    [ControllerModel.Initial(1, most),
     C(2, Record(Queued, None, 0), {1}, [], most, map[1 := None], map[], 0, [], map[], map[], map[]),
     C(2, Record(Power, Some(true), 1), {1}, [], most, held, Command(0, true), 1, [], map[], map[], map[]),
     C(2, Record(Ready, Some(true), 0), {1}, [], most, held, map[], 1, [], map[(1, RACK) := Report(true, true)], map[key := true], map[]),
     C(2, Record(Power, Some(false), 1), {}, retired, most, held, Command(1, false), 2, [1],
       map[(1, RACK) := Report(true, true)], map[key := true], map[]),
     C(2, Record(Ready, Some(false), 0), {}, retired, most, if most == 0 then held else map[], map[], 2, [1],
       map[(1, RACK) := Report(false, success)], if success then map[key := false] else map[], map[])]
  }

  lemma OneBoardFacts(power: bool, enable: Option<bool>)
    ensures SiteOk(OneBoard()) && GrantOk(OneBoard(), WholeMachine()) && FramesOf(OneBoard(), WholeMachine()) == {RACK}
    ensures Ordering([RACK], FramesOf(OneBoard(), WholeMachine()))
    ensures RequestFor(OneBoard(), 1, WholeMachine(), RACK, power, enable) == Request(1, "m", RACK, power, {0}, {})
    ensures Targets(OneBoard(), Request(1, "m", RACK, power, {0}, {})) == {Board(0, 0, 0)}
  {
    var layout, b := OneBoard()["m"], Board(0, 0, 0);
    assert layout[b].Rack() == RACK && layout[b].board == 0;
    assert FramesOf(OneBoard(), WholeMachine()) == {RACK} by {
      assert RACK in Frames(layout, {b});
    }
    assert BoardsIn(layout, {b}, RACK) == {0} by {
      assert 0 in BoardsIn(layout, {b}, RACK);
    }
    assert LinksIn(layout, {}, enable, RACK) == {};
    assert RACK in [RACK];
  }

  lemma OneCommand(bmp: map<nat, Request>, n: nat, power: bool, enable: Option<bool>)
    requires bmp == map[]
    ensures GrantOk(OneBoard(), WholeMachine())
    ensures Sent(bmp, n, Batch(OneBoard(), 1, WholeMachine(), [RACK], power, enable)) == Command(n, power)
  {
    OneBoardFacts(power, enable);
    var r := Request(1, "m", RACK, power, {0}, {});
    assert Batch(OneBoard(), 1, WholeMachine(), [RACK], power, enable) == [r];
    assert Sent(bmp[n := r], n + 1, []) == bmp[n := r];
    assert bmp[n := r] == Command(n, power);
  }

  lemma ShortLifeIsCreated(most: nat, success: bool)
    ensures var s := ShortLifeStates(most, success); var a := ShortLife(success); var site := OneBoard();
            Allowed(site, s[0], a[0]) && Next(site, s[0], a[0]) == s[1]
  {
    var c, c' := ShortLifeStates(most, success)[0], ShortLifeStates(most, success)[1];
    assert Create(c).records == c'.records && Create(c).live == c'.live && Create(c).queue == c'.queue;
  }

  /** What else there is is the same in both states. */
  predicate SameRest(c: C, c': C) {
    c'.nextId == c.nextId && c'.maxRetired == c.maxRetired && c'.done == c.done && c'.lit == c.lit && c'.wired == c.wired
  }

  lemma PowerOn(c: C)
    requires c.bmp == map[] && c.nextTicket == 0 && c.records == Record(Queued, None, 0) && c.queue == map[1 := None]
    ensures GrantOk(OneBoard(), WholeMachine())
    ensures Allocate(OneBoard(), c, 1, WholeMachine(), [RACK]) ==
              c.(bmp := Command(0, true), nextTicket := 1, records := Record(Power, Some(true), 1),
                 queue := map[1 := Some(WholeMachine())])
  {
    OneBoardFacts(true, Some(false));
    OneCommand(map[], 0, true, Some(false));
    var c' := Allocate(OneBoard(), c, 1, WholeMachine(), [RACK]);
    assert c'.records == Record(Power, Some(true), 1);
    assert c'.bmp == Command(0, true) && c'.queue == map[1 := Some(WholeMachine())];
  }

  lemma PowerOff(c: C)
    requires c.bmp == map[] && c.nextTicket == 1 && c.records == Record(Ready, Some(true), 0)
    ensures GrantOk(OneBoard(), WholeMachine())
    ensures Withdraw(OneBoard(), c, 1, [RACK]) ==
              Retire(c, 1).(bmp := Command(1, false), nextTicket := 2, records := Record(Power, Some(false), 1))
  {
    OneBoardFacts(false, None);
    OneCommand(map[], 1, false, None);
    var c' := Withdraw(OneBoard(), c, 1, [RACK]);
    assert c'.records == Record(Power, Some(false), 1);
    assert c'.bmp == Command(1, false);
  }

  lemma PoweredOn(c: C, c': C)
    requires c.bmp == map[] && c.nextTicket == 0 && c.records == Record(Queued, None, 0) && c.queue == map[1 := None]
    requires SameRest(c, c') && c'.live == c.live && c'.retired == c.retired && c'.destroyed == c.destroyed
    requires c'.bmp == Command(0, true) && c'.nextTicket == 1 && c'.records == Record(Power, Some(true), 1)
    requires c'.queue == map[1 := Some(WholeMachine())] && c.live == {1}
    ensures var a := DoAllocate(1, WholeMachine(), [RACK]);
            Allowed(OneBoard(), c, a) && Next(OneBoard(), c, a) == c'
  {
    OneBoardFacts(true, Some(false));
    PowerOn(c);
  }

  lemma ShortLifeIsAllocated(most: nat, success: bool)
    ensures var s := ShortLifeStates(most, success); var a := ShortLife(success); var site := OneBoard();
            Allowed(site, s[1], a[1]) && Next(site, s[1], a[1]) == s[2]
  {
    PoweredOn(ShortLifeStates(most, success)[1], ShortLifeStates(most, success)[2]);
  }

  lemma OneBoardSwitched(lit: Lights, power: bool, success: bool)
    ensures var key := ("m", Board(0, 0, 0));
            Switched(lit, "m", {Board(0, 0, 0)}, Report(power, success)) == if success then lit[key := power] else lit - {key}
  {
    var key := ("m", Board(0, 0, 0));
    assert (set b | b in {Board(0, 0, 0)} :: ("m", b)) == {key};
  }

  /** The one command of the one job ends. */
  lemma OnlyCommandEnds(c: C, n: nat, power: bool, success: bool)
    requires c.bmp == Command(n, power) && c.records == Record(Power, Some(power), 1) && c.wired == map[]
    ensures var key := ("m", Board(0, 0, 0));
            CountDown(OneBoard(), c, n, success) ==
              c.(bmp := map[], done := c.done[(1, RACK) := Report(power, success)],
                 lit := if success then c.lit[key := power] else c.lit - {key},
                 records := Record(Ready, Some(power), 0), queue := if 1 in c.retired then c.queue - {1} else c.queue)
  {
    OneBoardFacts(power, None);
    var r := Request(1, "m", RACK, power, {0}, {});
    assert c.bmp[n] == r && c.bmp - {n} == map[];
    assert Targets(OneBoard(), r) == {Board(0, 0, 0)};
    OneBoardSwitched(c.lit, power, success);
    assert Addressed(OneBoard(), r) == {};
    assert Rewired(OneBoard(), c.wired, r, success) == map[];
    assert c.records[1 := c.records[1].(requestsUntilReady := 0, state := Ready)] == Record(Ready, Some(power), 0);
  }

  /** The outcome of the one command, field by field. */
  lemma OnlyCommandEndsIn(c: C, n: nat, power: bool, success: bool, c': C)
    requires c.bmp == Command(n, power) && c.records == Record(Power, Some(power), 1) && c.wired == map[] == c'.wired
    requires c'.nextId == c.nextId && c'.live == c.live && c'.retired == c.retired && c'.maxRetired == c.maxRetired
    requires c'.nextTicket == c.nextTicket && c'.destroyed == c.destroyed
    requires c'.bmp == map[] && c'.records == Record(Ready, Some(power), 0)
    requires c'.done == c.done[(1, RACK) := Report(power, success)]
    requires c'.lit == if success then c.lit[("m", Board(0, 0, 0)) := power] else c.lit - {("m", Board(0, 0, 0))}
    requires c'.queue == if 1 in c.retired then c.queue - {1} else c.queue
    requires c.nextTicket == n + 1 && c.queue == map[1 := Some(WholeMachine())] && (success || 1 !in c.live)
    ensures var a := DoComplete(n, success, [RACK]); Allowed(OneBoard(), c, a) && Next(OneBoard(), c, a) == c'
  {
    OneBoardFacts(power, None);
    OnlyCommandEnds(c, n, power, success);
  }

  lemma ShortLifeIsPoweredOn(most: nat, success: bool)
    ensures var s := ShortLifeStates(most, success); var a := ShortLife(success); var site := OneBoard();
            Allowed(site, s[2], a[2]) && Next(site, s[2], a[2]) == s[3]
  {
    var c, c' := ShortLifeStates(most, success)[2], ShortLifeStates(most, success)[3];
    assert c.lit[("m", Board(0, 0, 0)) := true] == c'.lit;
    assert c.done[(1, RACK) := Report(true, true)] == c'.done;
    OnlyCommandEndsIn(c, 0, true, true, c');
  }

  lemma PoweredOff(c: C, c': C)
    requires c.bmp == map[] && c.nextTicket == 1 && c.records == Record(Ready, Some(true), 0)
    requires SameRest(c, c') && c'.queue == c.queue && c'.live == c.live - {1}
    requires c'.retired == Evict(c.retired + [1], c.maxRetired) && c'.destroyed == c.destroyed + [1]
    requires c'.bmp == Command(1, false) && c'.nextTicket == 2 && c'.records == Record(Power, Some(false), 1)
    requires c.live == {1} && c.queue == map[1 := Some(WholeMachine())]
    ensures var a := DoDestroy(1, [RACK]); Allowed(OneBoard(), c, a) && Next(OneBoard(), c, a) == c'
  {
    OneBoardFacts(false, None);
    PowerOff(c);
  }

  lemma ShortLifeIsDestroyed(most: nat, success: bool)
    ensures var s := ShortLifeStates(most, success); var a := ShortLife(success); var site := OneBoard();
            Allowed(site, s[3], a[3]) && Next(site, s[3], a[3]) == s[4]
  {
    var c, c' := ShortLifeStates(most, success)[3], ShortLifeStates(most, success)[4];
    assert c'.retired == Evict(c.retired + [1], c.maxRetired) && c'.live == c.live - {1};
    PoweredOff(c, c');
  }

  lemma ShortLifeEnds(most: nat, success: bool)
    ensures var s := ShortLifeStates(most, success); var a := ShortLife(success); var site := OneBoard();
            Allowed(site, s[4], a[4]) && Next(site, s[4], a[4]) == s[5]
  {
    var c, c' := ShortLifeStates(most, success)[4], ShortLifeStates(most, success)[5];
    assert c.queue - {1} == map[];
    assert c.lit[("m", Board(0, 0, 0)) := false] == map[("m", Board(0, 0, 0)) := false];
    assert c.lit - {("m", Board(0, 0, 0))} == map[];
    assert c.done[(1, RACK) := Report(false, success)] == c'.done;
    OnlyCommandEndsIn(c, 1, false, success, c');
  }

  lemma ShortLifeStep(most: nat, success: bool, i: nat)
    requires i < 5
    ensures var s := ShortLifeStates(most, success); var a := ShortLife(success);
            Allowed(OneBoard(), s[i], a[i]) && s[i + 1] == Next(OneBoard(), s[i], a[i])
  {
    if i == 0 {
      ShortLifeIsCreated(most, success);
    } else if i == 1 {
      ShortLifeIsAllocated(most, success);
    } else if i == 2 {
      ShortLifeIsPoweredOn(most, success);
    } else if i == 3 {
      ShortLifeIsDestroyed(most, success);
    } else {
      ShortLifeEnds(most, success);
    }
  }

  lemma ShortLifeRuns(most: nat, success: bool)
    ensures Run(OneBoard(), 1, most, ShortLife(success), ShortLifeStates(most, success))
  {
    OneBoardFacts(true, None);
    forall i | 0 <= i < |ShortLife(success)|
      ensures Allowed(OneBoard(), ShortLifeStates(most, success)[i], ShortLife(success)[i])
      ensures ShortLifeStates(most, success)[i + 1]
           == Next(OneBoard(), ShortLifeStates(most, success)[i], ShortLife(success)[i])
    {
      ShortLifeStep(most, success, i);
    }
  }

  /**
   * A power-off that fails is not repeated, and the boards go back all the same: at the end of this run the job
   * queue has the board again, and nothing is known of its power.
   */
  lemma FailedPowerOffGivesBack(most: nat) returns (actions: seq<Action>, states: seq<C>)
    requires most >= 1
    ensures Run(OneBoard(), 1, most, actions, states) && actions != []
    ensures GivesBack(OneBoard(), states[|actions| - 1], actions[|actions| - 1], 1)
    ensures var c := states[|actions|];
            && c.bmp == map[] && 1 !in c.queue && c.done == map[(1, RACK) := Report(false, false)]
            && ("m", Board(0, 0, 0)) !in c.lit && !KnownOff(c, "m", Board(0, 0, 0))
  {
    actions, states := ShortLife(false), ShortLifeStates(most, false);
    ShortLifeRuns(most, false);
    assert Next(OneBoard(), states[4], actions[4]) == states[5];
  }

  /**
   * With a limit of no remembered jobs, a job that was created, allocated and destroyed has all its commands completed
   * and still holds its board: by ForgottenKeepsBoards it does so for ever.
   */
  lemma BoardsNeverComeBack() returns (actions: seq<Action>, states: seq<C>)
    ensures Run(OneBoard(), 1, 0, actions, states)
    ensures var c := states[|actions|];
            && Inv(OneBoard(), c) && c.bmp == map[] && c.live == {}
            && c.queue == map[1 := Some(WholeMachine())] && 1 !in c.live && 1 !in c.retired
  {
    actions, states := ShortLife(true), ShortLifeStates(0, true);
    ShortLifeRuns(0, true);
    RunKeeps(OneBoard(), 1, 0, actions, states, |actions|);
  }
}
