/** The OpenFlow connection of controller/ofctrl.c: its state machine, the
    barriers that acknowledge configurations, conntrack-zone flushes, and the
    wait before existing flows are cleared. */
module OfctrlState {
  import opened Options

  // --------------------------------------------------- static data of ofctrl.c

  datatype Phase = SNew | STlvTableRequested | STlvTableModSent | SWaitBeforeClear | SClearFlows | SUpdateFlows

  /** `struct ofctrl_flow_update`: the barrier `xid` acknowledges `req`. */
  datatype Update = Update(xid: nat, req: nat)

  /** The state of a pending conntrack zone, with `of_xid` where it is set. */
  datatype ZoneState = OfQueued | OfSent(xid: nat) | DbQueued | DbSent

  type Zone = nat

  datatype Ofctrl = Ofctrl(
    phase: Phase,
    flowUpdates: seq<Update>,
    curCfg: nat,
    oldReqCfg: nat,
    skippedLastTime: bool,
    initialClear: bool,
    waitTime: nat,
    expire: nat,
    flowsReady: bool,
    xid: nat,
    xid2: nat,
    zones: map<Zone, ZoneState>)

  // -------------------------------------------- ofctrl-wait-before-clear.c

  datatype Reason = StillWaiting | Disabled | Expired | FlowsReady

  /** `ofctrl_wait_before_clear_decide` */
  function Decide(ready: bool, waitTime: nat, expire: nat, now: nat): Reason {
    if waitTime == 0 then Disabled
    else if expire != 0 && now >= expire then Expired
    else if ready then FlowsReady
    else StillWaiting
  }

  // ------------------------------------------------------------ the connection

  datatype Msg = TlvRequest(xid: nat) | TlvMod(xid: nat) | Barrier(xid: nat) | FlushZone(zone: Zone) | Mods

  /** The current connection: what was sent on it, and the barriers the switch
      has not answered. It answers barriers in the order it got them, section
      6.2 of the OpenFlow Switch Specification 1.5.1. */
  datatype Net = Net(nextXid: nat, sent: seq<Msg>, inFlight: seq<nat>)

  /** What the claims speak about and the code does not keep: the flow-table
      batches queued since the last S_CLEAR_FLOWS, the barriers answered, and
      for the current connection the start of the wait timer with the wait
      configured then, and the last report about the initial flows. */
  datatype Batch = Batch(xid: nat, cfg: nat)
  datatype Timer = NotStarted | Started(at: nat, wait: nat)
  datatype Hist = Hist(batches: seq<Batch>, answered: set<nat>, timer: Timer, reportedReady: bool, lastReq: nat)

  datatype World = World(o: Ofctrl, net: Net, h: Hist)

  /** What a switch may send, as far as ofctrl.c tells it apart. */
  datatype TlvTable = HasOvnOption | FreeIndex(index: nat) | Unusable

  datatype Reply =
    | TlvReply(xid: nat, table: TlvTable)
    | TlvError(xid: nat, alreadyMapped: bool)
    | BarrierReply
    | Unrelated

  datatype Event =
    | Reconnect
    | Configure(waitTime: nat)
    | SetInitialFlowsReady(ready: bool)
    | Iterate(now: nat, msg: Option<Reply>)
    | Put(req: nat, changed: bool, otherMsgs: bool, backlog: bool, flushes: seq<Zone>)
    | QueueZone(zone: Zone)
    | CommitZones
    | ZonesCommitted

  // --------------------------------------------------------- ofctrl_run, by parts

  /** The part of `ofctrl_run` for a new connection. */
  function OnReconnect(w: World): World {
    w.(o := w.o.(phase := SNew, expire := 0, flowsReady := false, zones := Requeued(w.o.zones)),
       net := w.net.(sent := [], inFlight := []),
       h := w.h.(timer := NotStarted, reportedReady := false))
  }

  /** Flushes that were in flight are to be sent again. */
  function Requeued(zones: map<Zone, ZoneState>): map<Zone, ZoneState> {
    map z | z in zones :: if zones[z].OfSent? then OfQueued else zones[z]
  }

  /** `run_S_NEW`, `run_S_WAIT_BEFORE_CLEAR`, `run_S_CLEAR_FLOWS`; the others do
      nothing. */
  function RunState(w: World, now: nat): World {
    match w.o.phase
    case SNew =>
      var x := w.net.nextXid;
      w.(o := w.o.(phase := STlvTableRequested, xid := x),
         net := w.net.(nextXid := x + 1, sent := w.net.sent + [TlvRequest(x)]))
    case SWaitBeforeClear =>
      var r := Decide(w.o.flowsReady, w.o.waitTime, w.o.expire, now);
      if !r.StillWaiting? then w.(o := w.o.(phase := SClearFlows))
      else if w.o.expire == 0 then
        w.(o := w.o.(expire := now + w.o.waitTime), h := w.h.(timer := Started(now, w.o.waitTime)))
      else w
    case SClearFlows =>
      w.(o := w.o.(phase := SUpdateFlows, initialClear := true, flowUpdates := []), h := w.h.(batches := []))
    case _ => w
  }

  /** `process_tlv_table_reply` and the rest of `recv_S_TLV_TABLE_REQUESTED`. */
  function RecvTlvTable(w: World, table: TlvTable): World {
    if table.FreeIndex? then
      var x := w.net.nextXid;
      w.(o := w.o.(phase := STlvTableModSent, xid := x, xid2 := x + 1),
         net := w.net.(nextXid := x + 2, sent := w.net.sent + [TlvMod(x), Barrier(x + 1)],
                       inFlight := w.net.inFlight + [x + 1]))
    else w.(o := w.o.(phase := SWaitBeforeClear))
  }

  /** `recv_S_UPDATE_FLOWS` on a barrier reply. */
  function RecvBarrier(o: Ofctrl, x: nat): Ofctrl {
    if o.flowUpdates == [] then o
    else
      var front := o.flowUpdates[0];
      var o1 := if front.xid == x
                then o.(flowUpdates := o.flowUpdates[1..],
                        curCfg := if front.req >= o.curCfg then front.req else o.curCfg)
                else o;
      o1.(zones := Flushed(o.zones, x))
  }

  /** The flush that barrier `x` followed has succeeded. */
  function Flushed(zones: map<Zone, ZoneState>, x: nat): map<Zone, ZoneState> {
    map z | z in zones :: if zones[z] == OfSent(x) then DbQueued else zones[z]
  }

  /** `recv_<state>`. A message never arrives in S_NEW: `ofctrl_run` leaves that
      state before it looks for one. */
  function Recv(w: World, reply: Reply): World
    requires !w.o.phase.SNew?
    requires reply.BarrierReply? ==> w.net.inFlight != []
  {
    match reply
    case TlvReply(x, table) =>
      if w.o.phase.STlvTableRequested? && x == w.o.xid then RecvTlvTable(w, table)
      else if w.o.phase.STlvTableModSent? && (x == w.o.xid || x == w.o.xid2)
      then w.(o := w.o.(phase := SWaitBeforeClear))
      else w
    case TlvError(x, alreadyMapped) =>
      if w.o.phase.STlvTableRequested? && x == w.o.xid then w.(o := w.o.(phase := SWaitBeforeClear))
      else if w.o.phase.STlvTableModSent? && x == w.o.xid then
        w.(o := w.o.(phase := if alreadyMapped then SNew else SWaitBeforeClear))
      else if w.o.phase.STlvTableModSent? && x == w.o.xid2 then w.(o := w.o.(phase := SWaitBeforeClear))
      else w
    case BarrierReply =>
      var x := w.net.inFlight[0];
      var w1 := w.(net := w.net.(inFlight := w.net.inFlight[1..]), h := w.h.(answered := w.h.answered + {x}));
      if w.o.phase.SUpdateFlows? then w1.(o := RecvBarrier(w.o, x))
      else if w.o.phase.STlvTableModSent? && x == w.o.xid2 then w1.(o := w.o.(phase := SWaitBeforeClear))
      else w1
    case Unrelated => w
  }

  // ----------------------------------------------------------------- ofctrl_put

  /** The loop that records a barrier for `req`, from the newest update back. */
  function Track(fs: seq<Update>, x: nat, req: nat): seq<Update> {
    if fs == [] then [Update(x, req)]
    else
      var init, last := fs[..|fs| - 1], fs[|fs| - 1];
      if req < last.req then Track(init, x, req)
      else if req == last.req then init + [Update(x, req)]
      else fs + [Update(x, req)]
  }

  /** Queued flushes are sent, in some order, and remember their barrier. */
  function Sent(zones: map<Zone, ZoneState>, x: nat): map<Zone, ZoneState> {
    map z | z in zones :: if zones[z].OfQueued? then OfSent(x) else zones[z]
  }

  /** Whether `ofctrl_put` has to do something, after its early part. */
  function NeedPut(o: Ofctrl, req: nat, changed: bool): (bool, Ofctrl) {
    if changed || o.skippedLastTime || o.initialClear then (true, o.(oldReqCfg := req))
    else if req != o.oldReqCfg then
      if o.curCfg == o.oldReqCfg then
        if o.flowUpdates == [] then (false, o.(curCfg := req, oldReqCfg := req)) else (false, o)
      else (true, o.(oldReqCfg := req))
    else (false, o)
  }

  function Flushes(flushes: seq<Zone>): (r: seq<Msg>)
    ensures |r| == |flushes| && forall i | 0 <= i < |r| :: r[i] == FlushZone(flushes[i])
  {
    seq(|flushes|, i requires 0 <= i < |flushes| => FlushZone(flushes[i]))
  }

  /** A put that has messages to send: the flushes, then the rest, then a
      barrier, whose reply acknowledges `req`. */
  function SendPut(w: World, req: nat, flushes: seq<Zone>): World {
    var x := w.net.nextXid;
    World(w.o.(zones := Sent(w.o.zones, x), flowUpdates := Track(w.o.flowUpdates, x, req)),
          w.net.(nextXid := x + 1,
                 sent := w.net.sent + Flushes(flushes) + [Mods, Barrier(x)],
                 inFlight := w.net.inFlight + [x]),
          w.h.(batches := w.h.batches + [Batch(x, req)]))
  }

  /** A put without messages: the newest update now also stands for `req`, or
      `req` is reached at once. */
  function QuietPut(w: World, req: nat): World {
    if w.o.flowUpdates != [] then
      var last := |w.o.flowUpdates| - 1;
      w.(o := w.o.(flowUpdates := w.o.flowUpdates[last := w.o.flowUpdates[last].(req := req)]))
    else w.(o := w.o.(curCfg := req))
  }

  /** `ofctrl_put`, given the order `flushes` in which it walks the queued zones.
      `otherMsgs`: the flow, group and meter tables or load balancers need
      messages of their own. Deleting all flows after S_CLEAR_FLOWS is a
      message too. */
  function DoPut(w: World, req: nat, changed: bool, otherMsgs: bool, backlog: bool, flushes: seq<Zone>): World {
    var (need, o) := NeedPut(w.o, req, changed);
    var w1 := w.(o := o, h := w.h.(lastReq := req));
    if !need then w1
    else if !o.phase.SUpdateFlows? || backlog then w1.(o := o.(skippedLastTime := true))
    else
      var w2 := w1.(o := o.(skippedLastTime := false, initialClear := false));
      if flushes != [] || otherMsgs || o.initialClear then SendPut(w2, req, flushes) else QuietPut(w2, req)
  }

  // ---------------------------------------------------------------------- runs

  /** `flushes` lists the zones that wait for their flush. */
  ghost predicate Walks(flushes: seq<Zone>, zones: map<Zone, ZoneState>) {
    forall z :: z in flushes <==> z in zones && zones[z].OfQueued?
  }

  ghost predicate Enabled(w: World, ev: Event) {
    match ev
    case Iterate(_, msg) => msg.Some? && msg.value.BarrierReply? ==> w.net.inFlight != []
    case Put(_, _, _, _, flushes) => Walks(flushes, w.o.zones)
    case _ => true
  }

  /** One event. `Iterate` is a turn of the loop in `ofctrl_run`: run the state,
      then look at a received message. */
  ghost function Step(w: World, ev: Event): World
    requires Enabled(w, ev)
  {
    match ev
    case Reconnect => OnReconnect(w)
    case Configure(t) => w.(o := w.o.(waitTime := t))
    case SetInitialFlowsReady(b) => w.(o := w.o.(flowsReady := b), h := w.h.(reportedReady := b))
    case Iterate(now, msg) =>
      var w1 := RunState(w, now);
      if msg.None? then w1 else Recv(w1, msg.value)
    case Put(req, changed, otherMsgs, backlog, flushes) => DoPut(w, req, changed, otherMsgs, backlog, flushes)
    case QueueZone(z) => w.(o := w.o.(zones := w.o.zones[z := OfQueued]))
    case CommitZones =>
      w.(o := w.o.(zones := map z | z in w.o.zones :: if w.o.zones[z].DbQueued? then DbSent else w.o.zones[z]))
    case ZonesCommitted => w.(o := w.o.(zones := map z | z in w.o.zones && !w.o.zones[z].DbSent? :: w.o.zones[z]))
  }

  /** `ovn-controller` as it starts. */
  ghost predicate Init(w: World) {
    && w.o == Ofctrl(SNew, [], 0, 0, false, false, 0, 0, false, 0, 0, map[])
    && w.net == Net(1, [], [])
    && w.h == Hist([], {}, NotStarted, false, 0)
  }

  /** `ws` is a run: it starts initially, and each world follows by an event. */
  ghost predicate IsRun(ws: seq<World>, evs: seq<Event>) {
    && |ws| == |evs| + 1
    && Init(ws[0])
    && forall i | 0 <= i < |evs| :: Enabled(ws[i], evs[i]) && ws[i + 1] == Step(ws[i], evs[i])
  }
}
