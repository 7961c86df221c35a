/** controller/local_data.c: which datapaths are local, and their peer ports. */
module LocalData {
  import opened Options
  import opened Lists

  type Dp = int
  type PortId = string
  type Chassis = string

  datatype Kind = Patch | L3Gateway | Other

  /** The columns of a port binding that matter here. */
  datatype PortRow = PortRow(
    datapath: Option<Dp>,
    kind: Kind,
    chassis: Option<Chassis>,
    peer: Option<PortId>,
    redirect: Option<PortId>,
    alwaysRedirect: bool,
    haGroup: Option<set<Chassis>>)

  /** Port bindings by name, and by datapath in the order of the index. */
  datatype Sb = Sb(rows: map<PortId, PortRow>, byDatapath: map<Dp, seq<PortId>>)

  ghost predicate IndexOk(sb: Sb) {
    forall d, p :: (d in sb.byDatapath && p in sb.byDatapath[d]) <==> (p in sb.rows && sb.rows[p].datapath == Some(d))
  }

  function PortsOf(sb: Sb, d: Dp): seq<PortId> {
    if d in sb.byDatapath then sb.byDatapath[d] else []
  }

  /** `need_add_peer_to_local` */
  predicate NeedAddPeer(sb: Sb, self: Chassis, row: PortRow) {
    if row.kind.L3Gateway? && row.chassis == Some(self) then true
    else if !row.kind.Patch? then false
    else if row.redirect.None? then true
    else if row.redirect.value !in sb.rows then false
    else if !sb.rows[row.redirect.value].alwaysRedirect then true
    else sb.rows[row.redirect.value].haGroup.Some? && self in sb.rows[row.redirect.value].haGroup.value
  }

  /** The peer port of `p`, if it exists and belongs to a datapath. */
  function Peer(sb: Sb, p: PortId): Option<PortId> {
    if p in sb.rows && sb.rows[p].peer.Some? && sb.rows[p].peer.value in sb.rows
       && sb.rows[sb.rows[p].peer.value].datapath.Some?
    then sb.rows[p].peer else None
  }

  function Datapath(sb: Sb, p: PortId): Dp
    requires p in sb.rows && sb.rows[p].datapath.Some?
  {
    sb.rows[p].datapath.value
  }

  /** Port `p` makes its peer's datapath local. */
  predicate Leads(sb: Sb, self: Chassis, p: PortId) {
    p in sb.rows && !sb.rows[p].kind.Other? && Peer(sb, p).Some? && NeedAddPeer(sb, self, sb.rows[p])
  }

  /** In terms of the columns: port `p` has a peer that belongs to a datapath, and
      is a patch port without a chassis-redirect port; or a patch port with one
      that does not always redirect, or that may redirect to this chassis; or a
      gateway port bound to this chassis. */
  predicate Opens(sb: Sb, self: Chassis, p: PortId) {
    && p in sb.rows && sb.rows[p].peer.Some?
    && sb.rows[p].peer.value in sb.rows && sb.rows[sb.rows[p].peer.value].datapath.Some?
    && (|| (sb.rows[p].kind.Patch? && sb.rows[p].redirect.None?)
        || (sb.rows[p].kind.Patch? && sb.rows[p].redirect.Some? && sb.rows[p].redirect.value in sb.rows
            && var cr := sb.rows[sb.rows[p].redirect.value];
               !cr.alwaysRedirect || (cr.haGroup.Some? && self in cr.haGroup.value))
        || (sb.rows[p].kind.L3Gateway? && sb.rows[p].chassis == Some(self)))
  }

  lemma LeadsMeans(sb: Sb, self: Chassis, p: PortId)
    ensures Leads(sb, self, p) <==> Opens(sb, self, p)
  {
  }

  /** Port `p` belongs to datapath `d`, and its peer to `e`. */
  predicate Joins(sb: Sb, p: PortId, d: Dp, e: Dp) {
    && p in sb.rows && sb.rows[p].datapath == Some(d) && sb.rows[p].peer.Some?
    && sb.rows[p].peer.value in sb.rows && sb.rows[sb.rows[p].peer.value].datapath == Some(e)
  }

  // --------------------------------------------------------------- reachability

  ghost predicate Step(sb: Sb, self: Chassis, d: Dp, e: Dp) {
    exists p | p in PortsOf(sb, d) :: Leads(sb, self, p) && Datapath(sb, Peer(sb, p).value) == e
  }

  ghost predicate IsPath(sb: Sb, self: Chassis, path: seq<Dp>) {
    path != [] && forall i | 0 < i < |path| :: Step(sb, self, path[i - 1], path[i])
  }

  ghost predicate Reaches(sb: Sb, self: Chassis, d: Dp, e: Dp) {
    exists path :: IsPath(sb, self, path) && path[0] == d && path[|path| - 1] == e
  }

  /** More than `n` datapaths are reachable from `d`. */
  ghost predicate Deep(sb: Sb, self: Chassis, d: Dp, n: nat) {
    exists s: set<Dp> :: |s| > n && forall e | e in s :: Reaches(sb, self, d, e)
  }

  lemma ReachesSelf(sb: Sb, self: Chassis, d: Dp)
    ensures Reaches(sb, self, d, d)
  {
    assert IsPath(sb, self, [d]);
  }

  lemma ReachesStep(sb: Sb, self: Chassis, d: Dp, e: Dp, f: Dp)
    requires Reaches(sb, self, d, e) && Step(sb, self, e, f)
    ensures Reaches(sb, self, d, f)
  {
    var path :| IsPath(sb, self, path) && path[0] == d && path[|path| - 1] == e;
    var longer := path + [f];
    assert forall i | 0 < i < |path| :: longer[i] == path[i];
    assert IsPath(sb, self, longer);
  }

  lemma {:induction false} ElemsCard(s: seq<Dp>)
    requires NoDup(s)
    ensures |Elems(s)| == |s|
  {
    if s != [] {
      var init, last := s[..|s| - 1], s[|s| - 1];
      ElemsCard(init);
      assert last !in init;
      assert Elems(s) == Elems(init) + {last};
    }
  }

  // ----------------------------------------------------------------- peer ports

  datatype PeerPort = PeerPort(local: PortId, remote: PortId)

  type Locals = map<Dp, seq<PeerPort>>

  function LocalsOf(s: seq<PeerPort>): (r: seq<PortId>)
    ensures |r| == |s| && forall i | 0 <= i < |r| :: r[i] == s[i].local
  {
    seq(|s|, i requires 0 <= i < |s| => s[i].local)
  }

  /** Port `x.local` of datapath `d`, with its peer. */
  predicate EntryOk(sb: Sb, d: Dp, x: PeerPort) {
    x.local in sb.rows && sb.rows[x.local].datapath == Some(d) && Peer(sb, x.local) == Some(x.remote)
  }

  ghost predicate ListOk(sb: Sb, d: Dp, s: seq<PeerPort>) {
    NoDup(LocalsOf(s)) && forall x | x in s :: EntryOk(sb, d, x)
  }

  ghost predicate PeersOk(sb: Sb, locals: Locals) {
    forall d | d in locals :: ListOk(sb, d, locals[d])
  }

  /** The other end lists the port as well. */
  ghost predicate Listed(sb: Sb, locals: Locals, x: PeerPort) {
    x.local in sb.rows && sb.rows[x.local].datapath.Some? && Datapath(sb, x.local) in locals &&
    x in locals[Datapath(sb, x.local)]
  }

  ghost predicate Symmetric(sb: Sb, locals: Locals, except: set<PeerPort>) {
    forall d, x | d in locals && x in locals[d] && x !in except :: Listed(sb, locals, PeerPort(x.remote, x.local))
  }

  /** The lists are duplicate-free and symmetric, but for the entries in `except`. */
  ghost predicate Good(sb: Sb, locals: Locals, except: set<PeerPort>) {
    PeersOk(sb, locals) && Symmetric(sb, locals, except)
  }

  /** Each peer's peer is the port itself. */
  ghost predicate Mutual(sb: Sb) {
    forall p | Peer(sb, p).Some? :: Peer(sb, Peer(sb, p).value) == Some(p)
  }

  /** `local_datapath_peer_port_add` on the array of a datapath. */
  function PeerAdded(s: seq<PeerPort>, l: PortId, r: PortId): seq<PeerPort> {
    if l in LocalsOf(s) then s else s + [PeerPort(l, r)]
  }

  lemma PeerAddedOk(sb: Sb, d: Dp, s: seq<PeerPort>, l: PortId, r: PortId)
    requires ListOk(sb, d, s) && EntryOk(sb, d, PeerPort(l, r))
    ensures ListOk(sb, d, PeerAdded(s, l, r))
    ensures forall x :: x in PeerAdded(s, l, r) <==> x in s || x == PeerPort(l, r)
  {
    if l in LocalsOf(s) {
      var i :| 0 <= i < |s| && LocalsOf(s)[i] == l;
      assert s[i] in s && s[i] == PeerPort(l, r);
    } else {
      PushNoDup(LocalsOf(s), l);
      assert LocalsOf(s + [PeerPort(l, r)]) == LocalsOf(s) + [l];
    }
  }

  function PeerAddedAt(locals: Locals, d: Dp, l: PortId, r: PortId): Locals
    requires d in locals
  {
    locals[d := PeerAdded(locals[d], l, r)]
  }

  /** Both ends get listed: first the port's peer, then the port. */
  function PairAdded(locals: Locals, d: Dp, p: PortId, e: Dp, r: PortId): Locals
    requires d in locals && e in locals
  {
    PeerAddedAt(PeerAddedAt(locals, e, r, p), d, p, r)
  }

  lemma PairAddedGood(sb: Sb, locals: Locals, except: set<PeerPort>, d: Dp, p: PortId, e: Dp, r: PortId)
    requires Good(sb, locals, except) && d in locals && e in locals
    requires EntryOk(sb, d, PeerPort(p, r)) && EntryOk(sb, e, PeerPort(r, p))
    ensures Good(sb, PairAdded(locals, d, p, e, r), except)
  {
    var mid := PeerAddedAt(locals, e, r, p);
    var end := PeerAddedAt(mid, d, p, r);
    PeerAddedOk(sb, e, locals[e], r, p);
    PeerAddedOk(sb, d, mid[d], p, r);
    assert forall c, x | c in locals && x in locals[c] :: x in end[c];
    forall c, x: PeerPort | c in end && x in end[c] && x !in except
      ensures Listed(sb, end, PeerPort(x.remote, x.local))
    {
      if x in locals[c] {
        assert Listed(sb, locals, PeerPort(x.remote, x.local));
      }
    }
  }

  lemma PeerAddedGrows(s: seq<PeerPort>, l: PortId, r: PortId)
    ensures s <= PeerAdded(s, l, r) && l in LocalsOf(PeerAdded(s, l, r))
    ensures forall x | x in PeerAdded(s, l, r) && x !in s :: x == PeerPort(l, r)
  {
    if l !in LocalsOf(s) {
      assert LocalsOf(s + [PeerPort(l, r)])[|s|] == l;
    }
  }

  lemma PairAddedGrows(locals: Locals, d: Dp, p: PortId, e: Dp, r: PortId)
    requires d in locals && e in locals
    ensures Grows(locals, PairAdded(locals, d, p, e, r)) && p in LocalsOf(PairAdded(locals, d, p, e, r)[d])
    ensures forall c, x | c in locals && x in PairAdded(locals, d, p, e, r)[c] && x !in locals[c] ::
      x == PeerPort(p, r) || x == PeerPort(r, p)
  {
    var mid := PeerAddedAt(locals, e, r, p);
    PeerAddedGrows(locals[e], r, p);
    PeerAddedGrows(mid[d], p, r);
  }

  // ----------------------------------------------------- what the search changes

  /** Datapaths stay, and their lists only get longer. */
  ghost predicate Grows(was: Locals, now: Locals) {
    forall d | d in was :: d in now && was[d] <= now[d]
  }

  ghost predicate NewReached(sb: Sb, self: Chassis, root: Dp, was: Locals, now: Locals) {
    forall e | e in now && e !in was :: Reaches(sb, self, root, e)
  }

  /** What a new datapath leads to is local; except for those in `skip`. */
  ghost predicate Closed(sb: Sb, self: Chassis, was: Locals, now: Locals, skip: set<Dp>) {
    forall e, f | e in now && e !in was && e !in skip && Step(sb, self, e, f) :: f in now
  }

  /** Ports of a new datapath that lead somewhere are listed; except for the
      datapaths in `skip`. */
  ghost predicate LeadersListed(sb: Sb, self: Chassis, was: Locals, now: Locals, skip: set<Dp>) {
    forall e, p | e in now && e !in was && e !in skip && p in PortsOf(sb, e) && Leads(sb, self, p) ::
      p in LocalsOf(now[e])
  }

  /** A port of a new datapath that leads somewhere. */
  ghost predicate NewLeader(sb: Sb, self: Chassis, was: Locals, p: PortId) {
    Leads(sb, self, p) && sb.rows[p].datapath.Some? && Datapath(sb, p) !in was
  }

  ghost predicate NewEntries(sb: Sb, self: Chassis, was: Locals, now: Locals) {
    forall d, x | d in now && x in now[d] && !(d in was && x in was[d]) ::
      NewLeader(sb, self, was, x.local) || NewLeader(sb, self, was, x.remote)
  }

  /** A new datapath was led to from another new one. */
  ghost predicate FoundBy(sb: Sb, self: Chassis, was: Locals, now: Locals, p: PortId, d: Dp, e: Dp) {
    Leads(sb, self, p) && Joins(sb, p, d, e) && d in now && d !in was
  }

  ghost predicate Found(sb: Sb, self: Chassis, start: Dp, was: Locals, now: Locals) {
    forall e | e in now && e !in was && e != start :: exists p, d :: FoundBy(sb, self, was, now, p, d, e)
  }

  /** The search from `e`, which port `p` of `dp` leads to, found more. */
  lemma FoundMore(sb: Sb, self: Chassis, dp: Dp, was: Locals, mid: Locals, now: Locals, p: PortId, e: Dp)
    requires Found(sb, self, dp, was, mid) && Found(sb, self, e, mid, now)
    requires Grows(was, mid) && Grows(mid, now) && dp in mid && dp !in was
    requires Leads(sb, self, p) && Joins(sb, p, dp, e)
    ensures Found(sb, self, dp, was, now)
  {
    forall f | f in now && f !in was && f != dp ensures exists q, d :: FoundBy(sb, self, was, now, q, d, f) {
      if f in mid {
        var q, d :| FoundBy(sb, self, was, mid, q, d, f);
        assert FoundBy(sb, self, was, now, q, d, f);
      } else if f == e {
        assert FoundBy(sb, self, was, now, p, dp, e);
      } else {
        var q, d :| FoundBy(sb, self, mid, now, q, d, f);
        assert FoundBy(sb, self, was, now, q, d, f);
      }
    }
  }

  lemma GrowsTrans(a: Locals, b: Locals, c: Locals)
    requires Grows(a, b) && Grows(b, c)
    ensures Grows(a, c)
  {
  }

  lemma ClosedTrans(sb: Sb, self: Chassis, a: Locals, b: Locals, c: Locals, skip: set<Dp>)
    requires Grows(a, b) && Grows(b, c) && Closed(sb, self, a, b, skip) && Closed(sb, self, b, c, {})
    ensures Closed(sb, self, a, c, skip)
  {
  }

  lemma ListedTrans(sb: Sb, self: Chassis, a: Locals, b: Locals, c: Locals, skip: set<Dp>)
    requires Grows(a, b) && Grows(b, c) && LeadersListed(sb, self, a, b, skip) && LeadersListed(sb, self, b, c, {})
    ensures LeadersListed(sb, self, a, c, skip)
  {
    forall e, p | e in c && e !in a && e !in skip && p in PortsOf(sb, e) && Leads(sb, self, p)
      ensures p in LocalsOf(c[e])
    {
      if e in b {
        StillListed(b[e], c[e], p);
      }
    }
  }

  lemma StillListed(s: seq<PeerPort>, t: seq<PeerPort>, p: PortId)
    requires s <= t && p in LocalsOf(s)
    ensures p in LocalsOf(t)
  {
    var i :| 0 <= i < |s| && LocalsOf(s)[i] == p;
    assert LocalsOf(t)[i] == p;
  }

  lemma NewEntriesTrans(sb: Sb, self: Chassis, a: Locals, b: Locals, c: Locals)
    requires Grows(a, b) && Grows(b, c) && NewEntries(sb, self, a, b) && NewEntries(sb, self, b, c)
    ensures NewEntries(sb, self, a, c)
  {
    forall d, x: PeerPort | d in c && x in c[d] && !(d in a && x in a[d])
      ensures NewLeader(sb, self, a, x.local) || NewLeader(sb, self, a, x.remote)
    {
      if d in b && x in b[d] {
      } else {
        assert NewLeader(sb, self, b, x.local) || NewLeader(sb, self, b, x.remote);
      }
    }
  }

  /** What a search from `root` did between two states. */
  ghost predicate Searched(sb: Sb, self: Chassis, root: Dp, complete: bool, except: set<PeerPort>, was: Locals,
                           now: Locals, skip: set<Dp>) {
    && Grows(was, now)
    && NewReached(sb, self, root, was, now)
    && (complete ==> Closed(sb, self, was, now, skip) && LeadersListed(sb, self, was, now, skip))
    && NewEntries(sb, self, was, now)
    && (Mutual(sb) && Good(sb, was, except) ==> Good(sb, now, except))
  }

  lemma SearchedTrans(sb: Sb, self: Chassis, root: Dp, complete: bool, except: set<PeerPort>, a: Locals, b: Locals,
                      c: Locals, skip: set<Dp>)
    requires Searched(sb, self, root, complete, except, a, b, skip)
    requires Searched(sb, self, root, complete, except, b, c, {})
    ensures Searched(sb, self, root, complete, except, a, c, skip)
  {
    GrowsTrans(a, b, c);
    NewEntriesTrans(sb, self, a, b, c);
    if complete {
      ClosedTrans(sb, self, a, b, c, skip);
      ListedTrans(sb, self, a, b, c, skip);
    }
  }

  lemma PairListed(sb: Sb, self: Chassis, was: Locals, now: Locals, end: Locals, skip: set<Dp>)
    requires Grows(now, end) && end.Keys == now.Keys
    requires LeadersListed(sb, self, was, now, skip) && Closed(sb, self, was, now, skip)
    ensures LeadersListed(sb, self, was, end, skip) && Closed(sb, self, was, end, skip)
  {
    forall f, q | f in end && f !in was && f !in skip && q in PortsOf(sb, f) && Leads(sb, self, q)
      ensures q in LocalsOf(end[f])
    {
      StillListed(now[f], end[f], q);
    }
  }

  lemma PairEntries(sb: Sb, self: Chassis, was: Locals, now: Locals, d: Dp, p: PortId, e: Dp, r: PortId)
    requires NewEntries(sb, self, was, now) && NewLeader(sb, self, was, p) && d in now && e in now
    ensures NewEntries(sb, self, was, PairAdded(now, d, p, e, r))
  {
  }

  lemma PairStaysGood(sb: Sb, now: Locals, except: set<PeerPort>, d: Dp, p: PortId, e: Dp, r: PortId)
    requires Mutual(sb) && Good(sb, now, except) && d in now && e in now
    requires EntryOk(sb, d, PeerPort(p, r)) && r in sb.rows && sb.rows[r].datapath == Some(e)
    ensures Good(sb, PairAdded(now, d, p, e, r), except)
  {
    PairAddedGood(sb, now, except, d, p, e, r);
  }

  lemma SearchedPair(sb: Sb, self: Chassis, root: Dp, complete: bool, except: set<PeerPort>, was: Locals, now: Locals,
                     d: Dp, p: PortId, e: Dp, r: PortId)
    requires Searched(sb, self, root, complete, except, was, now, {d}) && d in now && e in now && d !in was
    requires EntryOk(sb, d, PeerPort(p, r)) && r in sb.rows && sb.rows[r].datapath == Some(e) && Leads(sb, self, p)
    ensures Searched(sb, self, root, complete, except, was, PairAdded(now, d, p, e, r), {d})
  {
    var end := PairAdded(now, d, p, e, r);
    PairAddedGrows(now, d, p, e, r);
    GrowsTrans(was, now, end);
    PairEntries(sb, self, was, now, d, p, e, r);
    if complete {
      PairListed(sb, self, was, now, end, {d});
    }
    if Mutual(sb) && Good(sb, now, except) {
      PairStaysGood(sb, now, except, d, p, e, r);
    }
  }

  /** The search went on from the peer's datapath, and then lists both ends. */
  lemma SearchedPeer(sb: Sb, self: Chassis, root: Dp, complete: bool, except: set<PeerPort>, was: Locals, mid: Locals,
                     now: Locals, d: Dp, p: PortId, e: Dp, r: PortId)
    requires EntryOk(sb, d, PeerPort(p, r)) && r in sb.rows && sb.rows[r].datapath == Some(e) && Leads(sb, self, p)
    requires Searched(sb, self, root, complete, except, was, mid, {d}) && d in mid && d !in was && e in now
    requires Searched(sb, self, root, complete, except, mid, now, {})
    ensures var end := PairAdded(now, d, p, e, r);
      && Searched(sb, self, root, complete, except, was, end, {d})
      && Grows(mid, end) && p in LocalsOf(end[d]) && end.Keys == now.Keys
  {
    SearchedTrans(sb, self, root, complete, except, was, mid, now, {d});
    SearchedPair(sb, self, root, complete, except, was, now, d, p, e, r);
    PairAddedGrows(now, d, p, e, r);
    GrowsTrans(mid, now, PairAdded(now, d, p, e, r));
  }

  lemma FoundPeer(sb: Sb, self: Chassis, was: Locals, mid: Locals, now: Locals, end: Locals, d: Dp, p: PortId, e: Dp)
    requires Found(sb, self, d, was, mid) && Found(sb, self, e, mid, now) && Grows(was, mid) && Grows(mid, now)
    requires d in mid && d !in was && Leads(sb, self, p) && Joins(sb, p, d, e) && end.Keys == now.Keys
    ensures Found(sb, self, d, was, end)
  {
    FoundMore(sb, self, d, was, mid, now, p, e);
    forall f | f in end && f !in was && f != d ensures exists q, c :: FoundBy(sb, self, was, end, q, c, f) {
      var q, c :| FoundBy(sb, self, was, now, q, c, f);
      assert FoundBy(sb, self, was, end, q, c, f);
    }
  }

  /** A port of a datapath, if it leads anywhere, is listed and has led there. */
  ghost predicate PortDone(sb: Sb, self: Chassis, locals: Locals, dp: Dp, p: PortId) {
    Leads(sb, self, p) ==> dp in locals && p in LocalsOf(locals[dp]) && Datapath(sb, Peer(sb, p).value) in locals
  }

  ghost predicate PortsDone(sb: Sb, self: Chassis, locals: Locals, dp: Dp, ports: seq<PortId>) {
    forall p | p in ports :: PortDone(sb, self, locals, dp, p)
  }

  lemma PortsStayDone(sb: Sb, self: Chassis, was: Locals, now: Locals, dp: Dp, ports: seq<PortId>)
    requires Grows(was, now) && PortsDone(sb, self, was, dp, ports)
    ensures PortsDone(sb, self, now, dp, ports)
  {
    forall p | p in ports ensures PortDone(sb, self, now, dp, p) {
      assert PortDone(sb, self, was, dp, p);
    }
  }

  lemma SearchedStart(sb: Sb, self: Chassis, root: Dp, complete: bool, except: set<PeerPort>, was: Locals, d: Dp)
    requires d !in was && Reaches(sb, self, root, d)
    ensures Searched(sb, self, root, complete, except, was, was[d := []], {d})
  {
    var now := was[d := []];
    if Good(sb, was, except) {
      forall c, x: PeerPort | c in now && x in now[c] && x !in except
        ensures Listed(sb, now, PeerPort(x.remote, x.local))
      {
        assert Listed(sb, was, PeerPort(x.remote, x.local));
      }
    }
  }

  lemma SearchedDone(sb: Sb, self: Chassis, root: Dp, complete: bool, except: set<PeerPort>, was: Locals, now: Locals,
                     d: Dp)
    requires Searched(sb, self, root, complete, except, was, now, {d})
    requires complete ==> forall f | Step(sb, self, d, f) :: f in now
    requires complete && d in now ==> forall p | p in PortsOf(sb, d) && Leads(sb, self, p) :: p in LocalsOf(now[d])
    ensures Searched(sb, self, root, complete, except, was, now, {})
  {
  }

  /** With `stack` under way, `dp` is one more datapath that is reachable. */
  lemma LimitIsDeep(sb: Sb, self: Chassis, root: Dp, stack: seq<Dp>, dp: Dp)
    requires NoDup(stack) && dp !in stack
    requires Reaches(sb, self, root, dp) && forall e | e in stack :: Reaches(sb, self, root, e)
    ensures Deep(sb, self, root, |stack|)
  {
    PushNoDup(stack, dp);
    ElemsCard(stack + [dp]);
    var s := Elems(stack + [dp]);
    assert forall e | e in s :: Reaches(sb, self, root, e);
  }

  /** The search never meets the depth limit: it is at `depth` with `n` datapaths
      under way, and not too many are reachable. */
  ghost predicate Shallow(sb: Sb, self: Chassis, root: Dp, depth: nat, n: nat)
    requires n <= depth <= 100
  {
    !Deep(sb, self, root, 100 - depth + n)
  }

  lemma OpenedLocal(sb: Sb, self: Chassis, dp: Dp, was: Locals, now: Locals)
    requires IndexOk(sb) && Found(sb, self, dp, was, now)
    ensures Closed(sb, self, was, now, {}) ==>
      forall p, d, e | d in now && d !in was && Opens(sb, self, p) && Joins(sb, p, d, e) :: e in now
    ensures forall e | e in now && e !in was && e != dp ::
      exists p, d :: d in now && d !in was && Opens(sb, self, p) && Joins(sb, p, d, e)
  {
    forall p, d, e | Closed(sb, self, was, now, {}) && d in now && d !in was && Opens(sb, self, p) && Joins(sb, p, d, e)
      ensures e in now
    {
      LeadsMeans(sb, self, p);
      assert p in PortsOf(sb, d);
      assert Step(sb, self, d, e);
    }
    forall e | e in now && e !in was && e != dp
      ensures exists p, d :: d in now && d !in was && Opens(sb, self, p) && Joins(sb, p, d, e)
    {
      var p, d :| FoundBy(sb, self, was, now, p, d, e);
      LeadsMeans(sb, self, p);
    }
  }

  /** `struct hmap *local_datapaths` */
  class LocalDatapaths {
    var locals: Locals

    constructor ()
      ensures locals == map[]
    {
      locals := map[];
    }

    /** `local_datapath_peer_port_add` */
    method PeerPortAdd(d: Dp, l: PortId, r: PortId)
      requires d in locals
      modifies this
      ensures locals == old(locals)[d := PeerAdded(old(locals)[d], l, r)]
    {
      var s := locals[d];
      var i := 0;
      while i < |s|
        invariant 0 <= i <= |s| && l !in LocalsOf(s)[..i]
      {
        if s[i].local == l {
          assert LocalsOf(s)[i] == l;
          assert locals == locals[d := s];
          return;
        }
        i := i + 1;
      }
      locals := locals[d := s + [PeerPort(l, r)]];
    }

    /** Both calls of `local_datapath_peer_port_add` in the search. */
    method PairAdd(d: Dp, p: PortId, e: Dp, r: PortId)
      requires d in locals && e in locals
      modifies this
      ensures locals == PairAdded(old(locals), d, p, e, r)
    {
      PeerPortAdd(e, r, p);
      PeerPortAdd(d, p, r);
    }

    /** `add_local_datapath__`. `stack` holds the datapaths whose search is under
        way, starting at `root`. */
    method Add(sb: Sb, self: Chassis, depth: nat, dp: Dp, ghost except: set<PeerPort>, ghost root: Dp,
               ghost stack: seq<Dp>)
      requires IndexOk(sb) && depth <= 100 && |stack| <= depth
      requires NoDup(stack) && forall e | e in stack :: e in locals && Reaches(sb, self, root, e)
      requires Reaches(sb, self, root, dp)
      modifies this
      ensures dp in locals && Found(sb, self, dp, old(locals), locals)
      ensures Searched(sb, self, root, Shallow(sb, self, root, depth, |stack|), except, old(locals), locals, {})
      ensures depth < 100 && dp !in old(locals) ==>
        forall p | p in PortsOf(sb, dp) && Leads(sb, self, p) :: p in LocalsOf(locals[dp])
      decreases 100 - depth, 2
    {
      if dp in locals {
        return;
      }
      ghost var was := locals;
      ghost var complete := Shallow(sb, self, root, depth, |stack|);
      SearchedStart(sb, self, root, complete, except, was, dp);
      locals := locals[dp := []];
      if depth >= 100 {
        LimitIsDeep(sb, self, root, stack, dp);
        SearchedDone(sb, self, root, complete, except, was, locals, dp);
        return;
      }
      AddPeers(sb, self, depth, dp, except, root, stack, was);
      SearchedDone(sb, self, root, complete, except, was, locals, dp);
    }

    /** The loop of `add_local_datapath__`. */
    method AddPeers(sb: Sb, self: Chassis, depth: nat, dp: Dp,
                    ghost except: set<PeerPort>, ghost root: Dp, ghost stack: seq<Dp>, ghost was: Locals)
      requires IndexOk(sb) && depth < 100 && |stack| <= depth
      requires NoDup(stack) && forall e | e in stack :: e in was && Reaches(sb, self, root, e)
      requires Reaches(sb, self, root, dp) && dp !in was && dp in locals && Found(sb, self, dp, was, locals)
      requires Searched(sb, self, root, Shallow(sb, self, root, depth, |stack|), except, was, locals, {dp})
      modifies this
      ensures dp in locals && Found(sb, self, dp, was, locals)
      ensures Searched(sb, self, root, Shallow(sb, self, root, depth, |stack|), except, was, locals, {dp})
      ensures forall p | p in PortsOf(sb, dp) && Leads(sb, self, p) ::
        p in LocalsOf(locals[dp]) && Datapath(sb, Peer(sb, p).value) in locals
      decreases 100 - depth, 1
    {
      var ports := PortsOf(sb, dp);
      ghost var complete := Shallow(sb, self, root, depth, |stack|);
      for i := 0 to |ports|
        invariant dp in locals && Searched(sb, self, root, complete, except, was, locals, {dp})
        invariant PortsDone(sb, self, locals, dp, ports[..i]) && Found(sb, self, dp, was, locals)
      {
        assert ports[..i + 1] == ports[..i] + [ports[i]];
        if Leads(sb, self, ports[i]) {
          ghost var before := locals;
          AddPeer(sb, self, depth, dp, ports[i], except, root, stack, was);
          PortsStayDone(sb, self, before, locals, dp, ports[..i]);
        }
      }
      assert ports[..|ports|] == ports;
    }

    /** One port of `add_local_datapath__`'s loop. */
    method AddPeer(sb: Sb, self: Chassis, depth: nat, dp: Dp, p: PortId,
                   ghost except: set<PeerPort>, ghost root: Dp, ghost stack: seq<Dp>, ghost was: Locals)
      requires IndexOk(sb) && depth < 100 && |stack| <= depth
      requires NoDup(stack) && forall e | e in stack :: e in was && Reaches(sb, self, root, e)
      requires Reaches(sb, self, root, dp) && dp !in was && dp in locals
      requires p in PortsOf(sb, dp) && Leads(sb, self, p) && Found(sb, self, dp, was, locals)
      requires Searched(sb, self, root, Shallow(sb, self, root, depth, |stack|), except, was, locals, {dp})
      modifies this
      ensures Grows(old(locals), locals) && dp in locals && Found(sb, self, dp, was, locals)
      ensures Searched(sb, self, root, Shallow(sb, self, root, depth, |stack|), except, was, locals, {dp})
      ensures p in LocalsOf(locals[dp]) && Datapath(sb, Peer(sb, p).value) in locals
      decreases 100 - depth, 0
    {
      var r := Peer(sb, p).value;
      var e := Datapath(sb, r);
      ReachesStep(sb, self, root, dp, e);
      PushNoDup(stack, dp);
      ghost var complete := Shallow(sb, self, root, depth, |stack|);
      ghost var before := locals;
      Add(sb, self, depth + 1, e, except, root, stack + [dp]);
      ghost var mid := locals;
      SearchedPeer(sb, self, root, complete, except, was, before, mid, dp, p, e, r);
      PairAdd(dp, p, e, r);
      assert Found(sb, self, dp, was, locals) by { FoundPeer(sb, self, was, before, mid, locals, dp, p, e); }
    }

    /** `add_local_datapath`: adds only datapaths reachable from `dp`; unless more
        than 100 are reachable, the added ones lead only to local datapaths. In
        terms of columns: then the peer of every port of an added datapath that
        opens its peer's datapath is local as well; and in any case, each added
        datapath but the first was opened by a port of another added one. */
    method AddLocalDatapath(sb: Sb, self: Chassis, dp: Dp)
      requires IndexOk(sb)
      modifies this
      ensures dp in locals && Grows(old(locals), locals)
      ensures forall e | e in locals && e !in old(locals) :: Reaches(sb, self, dp, e)
      ensures !Deep(sb, self, dp, 100) ==>
        Closed(sb, self, old(locals), locals, {}) && LeadersListed(sb, self, old(locals), locals, {})
      ensures !Deep(sb, self, dp, 100) ==>
        forall p, d, e | d in locals && d !in old(locals) && Opens(sb, self, p) && Joins(sb, p, d, e) :: e in locals
      ensures forall e | e in locals && e !in old(locals) && e != dp ::
        exists p, d :: d in locals && d !in old(locals) && Opens(sb, self, p) && Joins(sb, p, d, e)
      ensures NewEntries(sb, self, old(locals), locals)
      ensures !Deep(sb, self, dp, 100) && AllClosed(sb, self, old(locals)) ==>
        AllClosed(sb, self, locals) && forall e | Reaches(sb, self, dp, e) :: e in locals
      ensures Mutual(sb) && Good(sb, old(locals), {}) ==> Good(sb, locals, {})
    {
      ReachesSelf(sb, self, dp);
      Add(sb, self, 0, dp, {}, dp, []);
      OpenedLocal(sb, self, dp, old(locals), locals);
      if !Deep(sb, self, dp, 100) && AllClosed(sb, self, old(locals)) {
        forall e | Reaches(sb, self, dp, e) ensures e in locals {
          ReachesLocal(sb, self, locals, dp, e);
        }
      }
    }

    /** `add_local_datapath_peer_port`. When the peer's datapath is new, the peer
        is listed there only if it leads back by itself. */
    method AddPeerPort(sb: Sb, self: Chassis, pb: PortId, d: Dp)
      requires IndexOk(sb) && pb in sb.rows && sb.rows[pb].datapath == Some(d) && d in locals
      modifies this
      ensures !sb.rows[pb].kind.Patch? || Peer(sb, pb).None? ==> locals == old(locals)
      ensures forall x | x in locals && x !in old(locals) ::
        Peer(sb, pb).Some? && Reaches(sb, self, Datapath(sb, Peer(sb, pb).value), x)
      ensures Peer(sb, pb).Some? && !Deep(sb, self, Datapath(sb, Peer(sb, pb).value), 99) ==>
        Closed(sb, self, old(locals), locals, {}) && LeadersListed(sb, self, old(locals), locals, {})
      ensures sb.rows[pb].kind.Patch? && Peer(sb, pb).Some? && Mutual(sb) && Good(sb, old(locals), {}) ==>
        var r := Peer(sb, pb).value;
        && Datapath(sb, r) in locals && PeersOk(sb, locals) && Listed(sb, locals, PeerPort(pb, r))
        && (Good(sb, locals, {}) <==> Datapath(sb, r) in old(locals) || Leads(sb, self, r))
    {
      if !sb.rows[pb].kind.Patch? || Peer(sb, pb).None? {
        return;
      }
      var r := Peer(sb, pb).value;
      var e := Datapath(sb, r);
      ghost var was := locals;
      PeerPortAdd(d, pb, r);
      ghost var mid := locals;
      if e !in locals {
        ReachesSelf(sb, self, e);
        Add(sb, self, 1, e, {PeerPort(pb, r)}, e, []);
        if Mutual(sb) && Good(sb, was, {}) {
          OneEndGood(sb, was, d, pb, r);
          OtherEnd(sb, self, mid, locals, d, pb, e, r);
        }
        return;
      }
      PeerPortAdd(e, r, pb);
      if Mutual(sb) && Good(sb, was, {}) {
        PairAddedGood(sb, was, {}, e, r, d, pb);
        PeerAddedOk(sb, d, was[d], pb, r);
        PairAddedGrows(was, e, r, d, pb);
        PeerAddedGrows(mid[e], r, pb);
      }
    }

    /** `remove_local_datapath_peer_port`. Each removal in one datapath goes on in
        the other; every round has one entry less. */
    method RemovePeerPort(sb: Sb, pb: PortId, d: Dp)
      requires d in locals && RemotesOk(sb, locals)
      modifies this
      ensures RemotesOk(sb, locals)
      ensures pb !in LocalsOf(old(locals)[d]) ==> locals == old(locals)
      ensures pb in LocalsOf(old(locals)[d]) && Mutual(sb) && PeersOk(sb, old(locals)) ==>
        Peer(sb, pb).Some? && PeersOk(sb, locals) && PairRemoved(old(locals), locals, pb, Peer(sb, pb).value)
      ensures Mutual(sb) && Good(sb, old(locals), {}) ==> Good(sb, locals, {})
      decreases Slots(locals)
    {
      var s := locals[d];
      var i := 0;
      while i < |s| && s[i].local != pb
        invariant 0 <= i <= |s| && pb !in LocalsOf(s)[..i]
      {
        i := i + 1;
      }
      if i == |s| {
        return;
      }
      RemoveAt(sb, pb, d, i);
    }

    method RemoveAt(sb: Sb, pb: PortId, d: Dp, i: nat)
      requires d in locals && RemotesOk(sb, locals) && i < |locals[d]| && locals[d][i].local == pb
      modifies this
      ensures RemotesOk(sb, locals)
      ensures Mutual(sb) && PeersOk(sb, old(locals)) ==>
        Peer(sb, pb).Some? && PeersOk(sb, locals) && PairRemoved(old(locals), locals, pb, Peer(sb, pb).value)
      ensures Mutual(sb) && Good(sb, old(locals), {}) ==> Good(sb, locals, {})
      decreases Slots(locals), 0
    {
      ghost var was := locals;
      var s := locals[d];
      var peer := s[i].remote;
      var e := Datapath(sb, peer);
      locals := locals[d := SwapRemoved(s, i)];
      ghost var mid := locals;
      assert (d, |s| - 1) in Slots(was) && (d, |s| - 1) !in Slots(mid);
      if e in locals {
        RemovePeerPort(sb, peer, e);
      }
      if Mutual(sb) && PeersOk(sb, was) {
        FirstRemoved(sb, was, d, i);
        BothRemoved(sb, was, mid, locals, d, i, e);
      }
    }
  }

  // -------------------------------------------------------------------- removal

  /** The last entry takes the place of entry `i`. */
  function SwapRemoved(s: seq<PeerPort>, i: nat): seq<PeerPort>
    requires i < |s|
  {
    s[i := s[|s| - 1]][..|s| - 1]
  }

  lemma SwapRemovedOk(sb: Sb, d: Dp, s: seq<PeerPort>, i: nat)
    requires ListOk(sb, d, s) && i < |s|
    ensures ListOk(sb, d, SwapRemoved(s, i))
    ensures forall x :: x in SwapRemoved(s, i) <==> x in s && x.local != s[i].local
  {
    var s', n := SwapRemoved(s, i), |s| - 1;
    assert forall j | 0 <= j < n :: s'[j] == s[if j == i then n else j];
    forall x: PeerPort
      ensures x in s' <==> x in s && x.local != s[i].local
    {
      if x in s' {
        var j :| 0 <= j < n && s'[j] == x;
        assert LocalsOf(s)[if j == i then n else j] != LocalsOf(s)[i];
      }
      if x in s && x.local != s[i].local {
        var j :| 0 <= j <= n && s[j] == x;
        assert s'[if j == n then i else j] == x;
      }
    }
    forall j, k | 0 <= j < k < n ensures LocalsOf(s')[j] != LocalsOf(s')[k] {
      assert LocalsOf(s)[if j == i then n else j] != LocalsOf(s)[if k == i then n else k];
    }
  }

  /** The positions in use; one goes with every removal. */
  ghost function Slots(locals: Locals): set<(Dp, int)> {
    set d, i | d in locals && 0 <= i < |locals[d]| :: (d, i)
  }

  /** What the code dereferences: remote ports belong to a datapath. */
  ghost predicate RemotesOk(sb: Sb, locals: Locals) {
    forall d, x | d in locals && x in locals[d] :: x.remote in sb.rows && sb.rows[x.remote].datapath.Some?
  }

  /** Exactly the entries of two ports are gone. */
  ghost predicate PairRemoved(was: Locals, now: Locals, p: PortId, r: PortId) {
    && now.Keys == was.Keys
    && forall c, x | c in was :: x in now[c] <==> x in was[c] && x.local != p && x.local != r
  }

  lemma PairRemovedGood(sb: Sb, was: Locals, now: Locals, p: PortId, r: PortId)
    requires Good(sb, was, {}) && PeersOk(sb, now) && PairRemoved(was, now, p, r)
    requires Mutual(sb) && Peer(sb, p) == Some(r)
    ensures Good(sb, now, {})
  {
    forall c, x: PeerPort | c in now && x in now[c] ensures Listed(sb, now, PeerPort(x.remote, x.local)) {
      assert Listed(sb, was, PeerPort(x.remote, x.local));
      assert Peer(sb, x.local) == Some(x.remote) && Peer(sb, x.remote) == Some(x.local);
    }
  }

  lemma NoEntryElsewhere(sb: Sb, locals: Locals, r: PortId, e: Dp)
    requires PeersOk(sb, locals) && r in sb.rows && sb.rows[r].datapath == Some(e)
    requires e in locals ==> r !in LocalsOf(locals[e])
    ensures forall c, x | c in locals && x in locals[c] :: x.local != r
  {
    forall c, x: PeerPort | c in locals && x in locals[c] ensures x.local != r {
      var i :| 0 <= i < |locals[c]| && locals[c][i] == x;
      assert LocalsOf(locals[c])[i] == x.local;
      assert EntryOk(sb, c, x);
    }
  }

  lemma FirstRemoved(sb: Sb, was: Locals, d: Dp, i: nat)
    requires PeersOk(sb, was) && d in was && i < |was[d]|
    ensures var p := was[d][i].local;
      var mid := was[d := SwapRemoved(was[d], i)];
      && PeersOk(sb, mid) && p !in LocalsOf(mid[d])
      && forall c, x | c in was :: x in mid[c] <==> x in was[c] && x.local != p
  {
    SwapRemovedOk(sb, d, was[d], i);
    var p := was[d][i].local;
    var mid := was[d := SwapRemoved(was[d], i)];
    assert forall j | 0 <= j < |mid[d]| :: mid[d][j] in mid[d];
    assert EntryOk(sb, d, was[d][i]);
    NoEntryElsewhere(sb, mid, p, d);
  }

  lemma BothRemoved(sb: Sb, was: Locals, mid: Locals, now: Locals, d: Dp, i: nat, e: Dp)
    requires Mutual(sb) && PeersOk(sb, was) && PeersOk(sb, mid)
    requires d in was && i < |was[d]| && mid.Keys == was.Keys
    requires forall c, x | c in was :: x in mid[c] <==> x in was[c] && x.local != was[d][i].local
    requires was[d][i].remote in sb.rows && sb.rows[was[d][i].remote].datapath == Some(e)
    requires var p, r := was[d][i].local, was[d][i].remote;
      if e in mid && r in LocalsOf(mid[e]) then PeersOk(sb, now) && PairRemoved(mid, now, r, p) else now == mid
    ensures var p, r := was[d][i].local, was[d][i].remote;
      Peer(sb, p) == Some(r) && PeersOk(sb, now) && PairRemoved(was, now, p, r)
    ensures Good(sb, was, {}) ==> Good(sb, now, {})
  {
    var p, r := was[d][i].local, was[d][i].remote;
    assert EntryOk(sb, d, was[d][i]);
    if !(e in mid && r in LocalsOf(mid[e])) {
      NoEntryElsewhere(sb, mid, r, e);
    }
    if Good(sb, was, {}) {
      PairRemovedGood(sb, was, now, p, r);
    }
  }

  /** Every local datapath leads only to local datapaths. */
  ghost predicate AllClosed(sb: Sb, self: Chassis, locals: Locals) {
    forall e, f | e in locals && Step(sb, self, e, f) :: f in locals
  }

  lemma ReachesLocal(sb: Sb, self: Chassis, locals: Locals, d: Dp, e: Dp)
    requires AllClosed(sb, self, locals) && d in locals && Reaches(sb, self, d, e)
    ensures e in locals
  {
    var path :| IsPath(sb, self, path) && path[0] == d && path[|path| - 1] == e;
    for i := 1 to |path|
      invariant path[i - 1] in locals
    {
    }
  }

  lemma OneEndGood(sb: Sb, was: Locals, d: Dp, p: PortId, r: PortId)
    requires Good(sb, was, {}) && d in was && EntryOk(sb, d, PeerPort(p, r))
    ensures Good(sb, PeerAddedAt(was, d, p, r), {PeerPort(p, r)})
    ensures PeerPort(p, r) in PeerAddedAt(was, d, p, r)[d]
  {
    var now := PeerAddedAt(was, d, p, r);
    PeerAddedOk(sb, d, was[d], p, r);
    forall c, x: PeerPort | c in now && x in now[c] && x !in {PeerPort(p, r)}
      ensures Listed(sb, now, PeerPort(x.remote, x.local))
    {
      assert x in was[c] && Listed(sb, was, PeerPort(x.remote, x.local));
    }
  }

  /** The search from the peer's datapath lists the peer iff the peer leads. */
  lemma OtherEnd(sb: Sb, self: Chassis, mid: Locals, now: Locals, d: Dp, p: PortId, e: Dp, r: PortId)
    requires IndexOk(sb) && Mutual(sb) && EntryOk(sb, d, PeerPort(p, r)) && r in sb.rows
    requires sb.rows[r].datapath == Some(e)
    requires d in mid && e !in mid && PeerPort(p, r) in mid[d] && Grows(mid, now) && e in now
    requires Good(sb, now, {PeerPort(p, r)}) && NewEntries(sb, self, mid, now)
    requires forall q | q in PortsOf(sb, e) && Leads(sb, self, q) :: q in LocalsOf(now[e])
    ensures PeersOk(sb, now) && Listed(sb, now, PeerPort(p, r))
    ensures Good(sb, now, {}) <==> Leads(sb, self, r)
  {
    assert PeerPort(p, r) in now[d];
    if Leads(sb, self, r) {
      assert r in PortsOf(sb, e);
      var i :| 0 <= i < |now[e]| && LocalsOf(now[e])[i] == r;
      assert now[e][i] in now[e] && now[e][i] == PeerPort(r, p);
    }
    if Good(sb, now, {}) {
      assert Listed(sb, now, PeerPort(r, p));
      assert NewLeader(sb, self, mid, r) || NewLeader(sb, self, mid, p);
    }
  }

  // ------------------------------------------------- symmetry lost in two calls

  const SWITCH: Dp := 1
  const ROUTER: Dp := 2

  /** A switch before a router is attached to it. */
  function SwitchAlone(): Sb {
    Sb(map[], map[])
  }

  /** The same switch with a plain patch port to a router's gateway port, which
      always redirects to a chassis of a group that `self` is not in. */
  function RouterAttached(): Sb {
    var lsp := PortRow(Some(SWITCH), Patch, None, Some("lrp"), None, false, None);
    var lrp := PortRow(Some(ROUTER), Patch, None, Some("lsp"), Some("cr-lrp"), false, None);
    var cr := PortRow(Some(ROUTER), Other, None, None, None, true, Some({}));
    Sb(map["lsp" := lsp, "lrp" := lrp, "cr-lrp" := cr], map[SWITCH := ["lsp"], ROUTER := ["lrp", "cr-lrp"]])
  }

  lemma RouterAttachedOk(self: Chassis)
    ensures var sb := RouterAttached();
      && IndexOk(sb) && Mutual(sb) && Peer(sb, "lsp") == Some("lrp") && Datapath(sb, "lrp") == ROUTER
      && Leads(sb, self, "lsp") && !Leads(sb, self, "lrp")
  {
    var sb := RouterAttached();
    assert Peer(sb, "lsp") == Some("lrp") && Peer(sb, "lrp") == Some("lsp");
    assert Peer(sb, "cr-lrp") == None;
    assert forall p | p in sb.rows :: p == "lsp" || p == "lrp" || p == "cr-lrp";
    assert "lsp" in sb.byDatapath[SWITCH] && "lrp" in sb.byDatapath[ROUTER] && "cr-lrp" in sb.byDatapath[ROUTER];
  }

  /** The switch becomes local, then the router is attached: the peer of the new
      port is not listed in the router's datapath. */
  method LosesSymmetry(self: Chassis) returns (ld: LocalDatapaths)
    ensures SWITCH in ld.locals && ROUTER in ld.locals
    ensures Listed(RouterAttached(), ld.locals, PeerPort("lsp", "lrp"))
    ensures !Symmetric(RouterAttached(), ld.locals, {})
  {
    ld := new LocalDatapaths();
    ld.AddLocalDatapath(SwitchAlone(), self, SWITCH);
    AloneStays(self, ld.locals);
    RouterAttachedOk(self);
    ld.AddPeerPort(RouterAttached(), self, "lsp", SWITCH);
  }

  lemma AloneStays(self: Chassis, locals: Locals)
    requires SWITCH in locals && forall e | e in locals :: Reaches(SwitchAlone(), self, SWITCH, e)
    requires NewEntries(SwitchAlone(), self, map[], locals)
    ensures locals == map[SWITCH := []]
  {
    forall e | e in locals ensures e == SWITCH {
      var path :| IsPath(SwitchAlone(), self, path) && path[0] == SWITCH && path[|path| - 1] == e;
      assert |path| > 1 ==> Step(SwitchAlone(), self, path[0], path[1]);
    }
    var s := locals[SWITCH];
    OneOf(s);
    assert forall x | x in s :: Leads(SwitchAlone(), self, x.local) || Leads(SwitchAlone(), self, x.remote);
    assert forall x :: x !in s;
  }
}
