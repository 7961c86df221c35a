/** controller/lflow.c: port security of packets delivered to a logical port,
    compiled into prioritised rules of the table OFTABLE_CHK_OUT_PORT_SEC. */
module PortSec {
  import opened Options

  function Pow2(n: nat): (r: nat)
    ensures r >= 1
  {
    if n == 0 then 1 else 2 * Pow2(n - 1)
  }

  /** An Ethernet address, byte by byte. */
  datatype Mac = Mac(b0: nat, b1: nat, b2: nat, b3: nat, b4: nat, b5: nat)

  /** An address of a family `width` bits wide, with a CIDR prefix length. */
  datatype NetAddr = NetAddr(addr: nat, plen: nat)

  /** `struct lport_addresses`: one port-security entry. */
  datatype Entry = Entry(mac: Mac, ip4: seq<NetAddr>, ip6: seq<NetAddr>)

  const WIDTH4: nat := 32
  const WIDTH6: nat := 128

  predicate AddrsOk(s: seq<NetAddr>, width: nat) {
    forall a | a in s :: a.plen <= width && a.addr < Pow2(width)
  }

  predicate EntryOk(e: Entry) {
    AddrsOk(e.ip4, WIDTH4) && AddrsOk(e.ip6, WIDTH6)
  }

  type Port = string

  datatype Net = NonIp | Ip4(dst: nat) | Ip6(dst: nat)

  datatype Packet = Packet(outport: Port, ethDst: Mac, net: Net)

  // --------------------------------------------------------------------- matches

  /** An address under a mask whose complement is `size` - 1. */
  datatype Masked = Masked(addr: nat, size: nat)

  datatype NetMatch = AnyNet | Type4 | Type6 | Dst4(m: Masked) | Dst6(m: Masked)

  /** `struct match`, as far as the builders set it. */
  datatype Match = Match(outport: Port, ethDst: Option<Mac>, net: NetMatch)

  datatype Action = Allow | Deny

  datatype Rule = Rule(priority: nat, match_: Match, action: Action)

  /** `x & mask` */
  function MaskOff(x: nat, size: nat): nat {
    if size == 0 then 0 else x - x % size
  }

  /** `addr | ~mask` */
  function Broadcast(x: nat, size: nat): nat
    requires size >= 1
  {
    MaskOff(x, size) + (size - 1)
  }

  predicate MaskedMatches(m: Masked, x: nat) {
    MaskOff(x, m.size) == MaskOff(m.addr, m.size)
  }

  predicate NetMatches(m: NetMatch, net: Net) {
    match m
    case AnyNet => true
    case Type4 => net.Ip4?
    case Type6 => net.Ip6?
    case Dst4(k) => net.Ip4? && MaskedMatches(k, net.dst)
    case Dst6(k) => net.Ip6? && MaskedMatches(k, net.dst)
  }

  predicate Matches(m: Match, p: Packet) {
    m.outport == p.outport && (m.ethDst.None? || m.ethDst.value == p.ethDst) && NetMatches(m.net, p.net)
  }

  /** Some matching rule of the highest matching priority has action `a`. */
  ghost predicate Decides(rules: seq<Rule>, p: Packet, a: Action) {
    exists r | r in rules ::
      && Matches(r.match_, p) && r.action == a
      && forall q | q in rules && Matches(q.match_, p) :: q.priority <= r.priority
  }

  lemma NextMultiple(s: nat, q: nat, m: nat)
    requires s < q
    ensures s * m + m <= q * m
  {
    assert q * m == s * m + m + (q - s - 1) * m;
  }

  lemma Multiple(x: nat, m: nat)
    requires m >= 1
    ensures x - x % m == x / m * m <= x < x / m * m + m
  {
  }

  lemma ModUnique(x: nat, v: nat, m: nat)
    requires m >= 1
    ensures x - x % m == v - v % m <==> v - v % m <= x <= v - v % m + (m - 1)
  {
    var s, q := x / m, v / m;
    Multiple(x, m);
    Multiple(v, m);
    if s < q {
      NextMultiple(s, q, m);
    } else if q < s {
      NextMultiple(q, s, m);
    }
  }

  /** A masked match is a range: from the network to the broadcast address. */
  lemma MaskedRange(m: Masked, x: nat)
    requires m.size >= 1
    ensures MaskedMatches(m, x) <==> MaskOff(m.addr, m.size) <= x <= Broadcast(m.addr, m.size)
  {
    ModUnique(x, m.addr, m.size);
  }

  // ------------------------------------------------------------ what it must mean

  /** The universal/local bit is inverted. */
  function Flip(b: nat): nat {
    if b / 2 % 2 == 0 then b + 2 else b - 2
  }

  /** Modified EUI-64 under fe80::/64, from an Ethernet address. */
  function LinkLocal(mac: Mac): nat {
    0xfe80_0000_0000_0000_0000_00ff_fe00_0000
      + Flip(mac.b0) * 0x100_0000_0000_0000 + mac.b1 * 0x1_0000_0000_0000 + mac.b2 * 0x100_0000_0000
      + mac.b3 * 0x1_0000 + mac.b4 * 0x100 + mac.b5
  }

  /** A number from its bytes, most significant first. */
  function FromBytes(bs: seq<nat>): nat {
    if bs == [] then 0 else 256 * FromBytes(bs[..|bs| - 1]) + bs[|bs| - 1]
  }

  lemma FromBytesPush(bs: seq<nat>, b: nat)
    ensures FromBytes(bs + [b]) == 256 * FromBytes(bs) + b
  {
    assert (bs + [b])[..|bs|] == bs;
  }

  lemma {:induction false} FromBytesInjective(a: seq<nat>, b: seq<nat>)
    requires |a| == |b| && (forall x | x in a :: x < 256) && (forall x | x in b :: x < 256)
    requires FromBytes(a) == FromBytes(b)
    ensures a == b
  {
    if a != [] {
      var n := |a| - 1;
      assert a[n] in a && b[n] in b;
      assert (forall x | x in a[..n] :: x in a) && (forall x | x in b[..n] :: x in b);
      FromBytesInjective(a[..n], b[..n]);
      assert a == a[..n] + [a[n]] && b == b[..n] + [b[n]];
    }
  }

  predicate BytesOk(mac: Mac) {
    mac.b0 < 256 && mac.b1 < 256 && mac.b2 < 256 && mac.b3 < 256 && mac.b4 < 256 && mac.b5 < 256
  }

  /** `c` is byte `b` with the universal/local bit inverted. */
  predicate BitInverted(b: nat, c: nat) {
    c / 4 == b / 4 && c % 2 == b % 2 && c / 2 % 2 != b / 2 % 2
  }

  lemma LowBits(q: nat, h: nat, l: nat)
    requires h < 2 && l < 2
    ensures var x := 4 * q + 2 * h + l; x / 4 == q && x / 2 % 2 == h && x % 2 == l
  {
    assert (4 * q + 2 * h + l) / 2 == 2 * q + h;
  }

  lemma FlipMeans(b: nat)
    ensures BitInverted(b, Flip(b)) && (b < 256 ==> Flip(b) < 256)
  {
    var q, h, l := b / 4, b / 2 % 2, b % 2;
    LowBits(q, h, l);
    LowBits(q, 1 - h, l);
  }

  const LINK_LOCAL_NET: seq<nat> := [0xfe, 0x80, 0, 0, 0, 0, 0, 0]

  /** The last eight bytes of the link-local address, with `f` for the first byte
      of the Ethernet address. */
  function InterfaceId(mac: Mac, f: nat): seq<nat> {
    [f, mac.b1, mac.b2, 0xff, 0xfe, mac.b3, mac.b4, mac.b5]
  }

  lemma Push4(bs: seq<nat>, a: nat, b: nat, c: nat, d: nat)
    ensures FromBytes(bs + [a, b, c, d]) ==
      0x1_0000_0000 * FromBytes(bs) + 0x100_0000 * a + 0x1_0000 * b + 0x100 * c + d
  {
    FromBytesPush(bs, a);
    FromBytesPush(bs + [a], b);
    FromBytesPush(bs + [a] + [b], c);
    FromBytesPush(bs + [a] + [b] + [c], d);
    assert bs + [a, b, c, d] == bs + [a] + [b] + [c] + [d];
  }

  lemma NetBytes()
    ensures FromBytes(LINK_LOCAL_NET) == 0xfe80_0000_0000_0000
  {
    var high: seq<nat> := [0xfe, 0x80, 0, 0];
    Push4([], 0xfe, 0x80, 0, 0);
    Push4(high, 0, 0, 0, 0);
    assert [] + high == high && LINK_LOCAL_NET == high + [0, 0, 0, 0];
  }

  lemma InterfaceBytes(net: seq<nat>, mac: Mac, f: nat)
    ensures FromBytes(net + InterfaceId(mac, f)) ==
      0x1_0000_0000_0000_0000 * FromBytes(net) + f * 0x100_0000_0000_0000 + mac.b1 * 0x1_0000_0000_0000
        + mac.b2 * 0x100_0000_0000 + 0xff_fe00_0000 + mac.b3 * 0x1_0000 + mac.b4 * 0x100 + mac.b5
  {
    var mid := net + [f, mac.b1, mac.b2, 0xff];
    Push4(net, f, mac.b1, mac.b2, 0xff);
    Push4(mid, 0xfe, mac.b3, mac.b4, mac.b5);
    assert net + InterfaceId(mac, f) == mid + [0xfe, mac.b3, mac.b4, mac.b5];
  }

  lemma LinkLocalSum(mac: Mac)
    ensures LinkLocal(mac) == FromBytes(LINK_LOCAL_NET + InterfaceId(mac, Flip(mac.b0)))
  {
    NetBytes();
    InterfaceBytes(LINK_LOCAL_NET, mac, Flip(mac.b0));
  }

  /** The address has the prefix fe80::/64, then the Ethernet address with ff:fe in
      its middle and one bit inverted. */
  lemma LinkLocalMeans(mac: Mac) returns (f: nat)
    ensures BitInverted(mac.b0, f) && LinkLocal(mac) == FromBytes(LINK_LOCAL_NET + InterfaceId(mac, f))
    ensures mac.b0 < 256 ==> f < 256
  {
    f := Flip(mac.b0);
    FlipMeans(mac.b0);
    LinkLocalSum(mac);
  }

  lemma InterfaceBytesOk(mac: Mac, f: nat)
    requires BytesOk(mac) && f < 256
    ensures forall x | x in LINK_LOCAL_NET + InterfaceId(mac, f) :: x < 256
  {
  }

  lemma InterfaceIdSame(a: Mac, f: nat, b: Mac, g: nat)
    requires LINK_LOCAL_NET + InterfaceId(a, f) == LINK_LOCAL_NET + InterfaceId(b, g)
    ensures f == g && a.b1 == b.b1 && a.b2 == b.b2 && a.b3 == b.b3 && a.b4 == b.b4 && a.b5 == b.b5
  {
    var x, y := InterfaceId(a, f), InterfaceId(b, g);
    assert x == (LINK_LOCAL_NET + x)[8..] == (LINK_LOCAL_NET + y)[8..] == y;
    assert x[0] == y[0] && x[1] == y[1] && x[2] == y[2] && x[5] == y[5] && x[6] == y[6] && x[7] == y[7];
  }

  /** Different Ethernet addresses have different link-local addresses. */
  lemma LinkLocalInjective(a: Mac, b: Mac)
    requires BytesOk(a) && BytesOk(b) && LinkLocal(a) == LinkLocal(b)
    ensures a == b
  {
    var f, g;
    f := LinkLocalMeans(a);
    g := LinkLocalMeans(b);
    InterfaceBytesOk(a, f);
    InterfaceBytesOk(b, g);
    FromBytesInjective(LINK_LOCAL_NET + InterfaceId(a, f), LINK_LOCAL_NET + InterfaceId(b, g));
    InterfaceIdSame(a, f, b, g);
  }

  /** How many addresses have the prefix. */
  function Size(a: NetAddr, width: nat): (r: nat)
    requires a.plen <= width
    ensures r >= 1
  {
    Pow2(width - a.plen)
  }

  /** `a` names one host: a full-length prefix, or host bits that are not zero. */
  predicate NamesHost(a: NetAddr, width: nat)
    requires a.plen <= width
  {
    a.plen == width || a.addr % Size(a, width) != 0
  }

  /** The addresses `a` stands for: the one host that it names with all bits or with
      host bits that are not zero, and otherwise all of its subnet. */
  predicate InAddr(a: NetAddr, width: nat, x: nat)
    requires a.plen <= width
  {
    var n := Pow2(width - a.plen);
    if a.plen == width || a.addr % n != 0 then x == a.addr else a.addr <= x < a.addr + n
  }

  /** IPv4: an address with a subnet also stands for the subnet's broadcast. */
  predicate InAddr4(a: NetAddr, x: nat)
    requires a.plen <= WIDTH4
  {
    var n := Pow2(WIDTH4 - a.plen);
    InAddr(a, WIDTH4, x) || (a.plen != WIDTH4 && x == a.addr - a.addr % n + n - 1)
  }

  predicate HasIp(e: Entry) {
    e.ip4 != [] || e.ip6 != []
  }

  ghost predicate Lets4(e: Entry, x: nat)
    requires EntryOk(e)
  {
    e.ip4 != [] &&
    ((exists a | a in e.ip4 :: InAddr4(a, x)) || x == 0xffff_ffff || 0xe000_0000 <= x <= 0xefff_ffff)
  }

  ghost predicate Lets6(e: Entry, x: nat)
    requires EntryOk(e)
  {
    e.ip6 != [] &&
    ((exists a | a in e.ip6 :: InAddr(a, WIDTH6, x)) || x == LinkLocal(e.mac) ||
     0xff00_0000_0000_0000_0000_0000_0000_0000 <= x <= 0xffff_ffff_ffff_ffff_ffff_ffff_ffff_ffff)
  }

  ghost predicate AllOk(es: seq<Entry>) {
    forall e | e in es :: EntryOk(e)
  }

  /** Whether a packet may be delivered, over all entries of the port. */
  ghost predicate Permitted(es: seq<Entry>, mac: Mac, net: Net)
    requires AllOk(es)
  {
    && (exists e | e in es :: e.mac == mac)
    && match net
       case NonIp => true
       case Ip4(x) =>
         || (forall e | e in es && e.mac == mac :: e.ip4 == [] && e.ip6 == [])
         || exists e | e in es && e.mac == mac :: Lets4(e, x)
       case Ip6(x) =>
         || (forall e | e in es && e.mac == mac :: e.ip4 == [] && e.ip6 == [])
         || exists e | e in es && e.mac == mac :: Lets6(e, x)
  }

  // ---------------------------------------------------------------- what is emitted

  function AddrMasked(a: NetAddr, width: nat): Masked
    requires a.plen <= width
  {
    Masked(a.addr, if NamesHost(a, width) then 1 else Size(a, width))
  }

  /** Addresses of an IPv4 entry that get a rule. */
  ghost predicate Emits4(s: seq<NetAddr>, m: Masked)
    requires AddrsOk(s, WIDTH4)
  {
    exists a | a in s ::
      m == AddrMasked(a, WIDTH4) ||
      (NamesHost(a, WIDTH4) && a.plen != WIDTH4 && m == Masked(Broadcast(a.addr, Size(a, WIDTH4)), 1))
  }

  ghost predicate Emits6(s: seq<NetAddr>, m: Masked)
    requires AddrsOk(s, WIDTH6)
  {
    exists a | a in s :: m == AddrMasked(a, WIDTH6)
  }

  const LIMITED_BROADCAST := Masked(0xffff_ffff, 1)
  const MULTICAST4 := Masked(0xe000_0000, 0x1000_0000)

  const MULTICAST6 := Masked(0xff00_0000_0000_0000_0000_0000_0000_0000, 0x100_0000_0000_0000_0000_0000_0000_0000)

  ghost predicate AllowsDst4(s: seq<NetAddr>, m: Masked)
    requires AddrsOk(s, WIDTH4)
  {
    Emits4(s, m) || m == LIMITED_BROADCAST || m == MULTICAST4
  }

  ghost predicate AllowsDst6(s: seq<NetAddr>, lla: nat, m: Masked)
    requires AddrsOk(s, WIDTH6)
  {
    Emits6(s, m) || m == Masked(lla, 1) || m == MULTICAST6
  }

  /** The rules of one entry. */
  ghost predicate EmitsNet(e: Entry, priority: nat, net: NetMatch)
    requires EntryOk(e)
  {
    match net
    case AnyNet => priority == 85
    case Type4 => priority == 90 && HasIp(e)
    case Type6 => priority == 90 && HasIp(e)
    case Dst4(m) => priority == 95 && e.ip4 != [] && AllowsDst4(e.ip4, m)
    case Dst6(m) => priority == 95 && e.ip6 != [] && AllowsDst6(e.ip6, LinkLocal(e.mac), m)
  }

  function ActionAt(priority: nat): Action {
    if priority == 85 || priority == 95 then Allow else Deny
  }

  ghost predicate Emits(port: Port, e: Entry, r: Rule)
    requires EntryOk(e)
  {
    && r.match_.outport == port && r.match_.ethDst == Some(e.mac)
    && EmitsNet(e, r.priority, r.match_.net)
    && r.action == ActionAt(r.priority)
  }

  /** `rules` holds exactly the rules of `es` for the port, next to rules of other ports. */
  ghost predicate Compiled(rules: seq<Rule>, port: Port, es: seq<Entry>)
    requires AllOk(es)
  {
    forall r: Rule | r.match_.outport == port ::
      r in rules <==> r == Rule(80, Match(port, None, AnyNet), Deny) || exists e | e in es :: Emits(port, e, r)
  }

  // ----------------------------------------------------- the rules mean what they must

  lemma AddrMaskedMeans(a: NetAddr, width: nat, x: nat)
    requires a.plen <= width
    ensures MaskedMatches(AddrMasked(a, width), x) <==> InAddr(a, width, x)
  {
    MaskedRange(AddrMasked(a, width), x);
  }

  lemma HostMeans(addr: nat, x: nat)
    ensures MaskedMatches(Masked(addr, 1), x) <==> x == addr
  {
    MaskedRange(Masked(addr, 1), x);
  }

  lemma BroadcastInSubnet(a: NetAddr)
    requires a.plen <= WIDTH4 && !NamesHost(a, WIDTH4)
    ensures InAddr(a, WIDTH4, Broadcast(a.addr, Size(a, WIDTH4)))
  {
  }

  lemma Multicast4Means(x: nat)
    ensures MaskedMatches(MULTICAST4, x) <==> 0xe000_0000 <= x <= 0xefff_ffff
  {
    MaskedRange(MULTICAST4, x);
  }

  lemma Multicast6Means(x: nat)
    ensures MaskedMatches(MULTICAST6, x) <==>
      0xff00_0000_0000_0000_0000_0000_0000_0000 <= x <= 0xffff_ffff_ffff_ffff_ffff_ffff_ffff_ffff
  {
    MaskedRange(MULTICAST6, x);
  }

  lemma Emitted4(s: seq<NetAddr>, a: NetAddr, x: nat) returns (m: Masked)
    requires AddrsOk(s, WIDTH4) && a in s && InAddr4(a, x)
    ensures Emits4(s, m) && MaskedMatches(m, x)
  {
    if InAddr(a, WIDTH4, x) {
      AddrMaskedMeans(a, WIDTH4, x);
      m := AddrMasked(a, WIDTH4);
    } else {
      assert NamesHost(a, WIDTH4) by {
        if !NamesHost(a, WIDTH4) {
          BroadcastInSubnet(a);
          assert false;
        }
      }
      m := Masked(x, 1);
      HostMeans(x, x);
    }
  }

  lemma Emitting4(s: seq<NetAddr>, m: Masked, x: nat) returns (a: NetAddr)
    requires AddrsOk(s, WIDTH4) && Emits4(s, m) && MaskedMatches(m, x)
    ensures a in s && InAddr4(a, x)
  {
    a :| a in s && (m == AddrMasked(a, WIDTH4) ||
      (NamesHost(a, WIDTH4) && a.plen != WIDTH4 && m == Masked(Broadcast(a.addr, Size(a, WIDTH4)), 1)));
    AddrMaskedMeans(a, WIDTH4, x);
    HostMeans(m.addr, x);
  }

  lemma Emits4Means(s: seq<NetAddr>, x: nat)
    requires AddrsOk(s, WIDTH4)
    ensures (exists a | a in s :: InAddr4(a, x)) <==> exists m :: Emits4(s, m) && MaskedMatches(m, x)
  {
    if a :| a in s && InAddr4(a, x) {
      var m := Emitted4(s, a, x);
    }
    if m :| Emits4(s, m) && MaskedMatches(m, x) {
      var a := Emitting4(s, m, x);
    }
  }

  lemma Emits6Means(s: seq<NetAddr>, x: nat)
    requires AddrsOk(s, WIDTH6)
    ensures (exists a | a in s :: InAddr(a, WIDTH6, x)) <==> exists m :: Emits6(s, m) && MaskedMatches(m, x)
  {
    if a :| a in s && InAddr(a, WIDTH6, x) {
      AddrMaskedMeans(a, WIDTH6, x);
      assert Emits6(s, AddrMasked(a, WIDTH6));
    }
    if m :| Emits6(s, m) && MaskedMatches(m, x) {
      var a :| a in s && m == AddrMasked(a, WIDTH6);
      AddrMaskedMeans(a, WIDTH6, x);
    }
  }

  lemma Lets4Means(e: Entry, x: nat)
    requires EntryOk(e)
    ensures Lets4(e, x) <==> exists m :: EmitsNet(e, 95, Dst4(m)) && MaskedMatches(m, x)
  {
    Emits4Means(e.ip4, x);
    Multicast4Means(x);
    HostMeans(0xffff_ffff, x);
    if Lets4(e, x) {
      if m :| Emits4(e.ip4, m) && MaskedMatches(m, x) {
        assert EmitsNet(e, 95, Dst4(m));
      } else if x == 0xffff_ffff {
        assert EmitsNet(e, 95, Dst4(LIMITED_BROADCAST));
      } else {
        assert EmitsNet(e, 95, Dst4(MULTICAST4));
      }
    }
  }

  lemma Lets6Means(e: Entry, x: nat)
    requires EntryOk(e)
    ensures Lets6(e, x) <==> exists m :: EmitsNet(e, 95, Dst6(m)) && MaskedMatches(m, x)
  {
    Emits6Means(e.ip6, x);
    Multicast6Means(x);
    HostMeans(LinkLocal(e.mac), x);
    if Lets6(e, x) {
      if m :| Emits6(e.ip6, m) && MaskedMatches(m, x) {
        assert EmitsNet(e, 95, Dst6(m));
      } else if x == LinkLocal(e.mac) {
        assert EmitsNet(e, 95, Dst6(Masked(LinkLocal(e.mac), 1)));
      } else {
        assert EmitsNet(e, 95, Dst6(MULTICAST6));
      }
    }
  }

  /** At one priority all rules of a port act alike, so the top priority decides. */
  lemma TopDecides(rules: seq<Rule>, port: Port, es: seq<Entry>, p: Packet, r: Rule)
    requires AllOk(es) && Compiled(rules, port, es) && p.outport == port
    requires r in rules && Matches(r.match_, p)
    requires forall q | q in rules && Matches(q.match_, p) :: q.priority <= r.priority
    ensures forall a :: Decides(rules, p, a) <==> a == r.action
  {
    forall a ensures Decides(rules, p, a) <==> a == r.action {
      if Decides(rules, p, a) {
        var q :| q in rules && Matches(q.match_, p) && q.action == a &&
          forall q' | q' in rules && Matches(q'.match_, p) :: q'.priority <= q.priority;
        assert q.match_.outport == port && r.match_.outport == port;
        assert q.action == ActionAt(q.priority) && r.action == ActionAt(r.priority);
      }
    }
  }

  function RuleFor(port: Port, e: Entry, priority: nat, net: NetMatch): Rule {
    Rule(priority, Match(port, Some(e.mac), net), ActionAt(priority))
  }

  lemma InRules(rules: seq<Rule>, port: Port, es: seq<Entry>, e: Entry, priority: nat, net: NetMatch)
    requires AllOk(es) && Compiled(rules, port, es) && e in es && EmitsNet(e, priority, net)
    ensures RuleFor(port, e, priority, net) in rules
  {
    assert Emits(port, e, RuleFor(port, e, priority, net));
  }

  /** A matching rule comes from an entry with the packet's address, or is the
      default. */
  lemma FromEntry(rules: seq<Rule>, port: Port, es: seq<Entry>, p: Packet, q: Rule) returns (e: Entry)
    requires AllOk(es) && Compiled(rules, port, es) && p.outport == port && es != []
    requires q in rules && Matches(q.match_, p)
    ensures q.priority == 80 || (e in es && e.mac == p.ethDst && Emits(port, e, q))
  {
    if q.priority == 80 {
      e := es[0];
    } else {
      e :| e in es && Emits(port, e, q);
    }
  }

  /** The rules deliver a packet exactly if the entries permit it. */
  lemma CompiledMeans(rules: seq<Rule>, port: Port, es: seq<Entry>, p: Packet)
    requires AllOk(es) && es != [] && Compiled(rules, port, es) && p.outport == port
    ensures Decides(rules, p, Allow) <==> Permitted(es, p.ethDst, p.net)
    ensures Decides(rules, p, Deny) <==> !Permitted(es, p.ethDst, p.net)
  {
    var mac, net := p.ethDst, p.net;
    if !exists e | e in es :: e.mac == mac {
      UnknownMac(rules, port, es, p);
    } else {
      var e :| e in es && e.mac == mac;
      match net
      case NonIp =>
        NonIpMeans(rules, port, es, p, e);
      case Ip4(x) =>
        if l :| l in es && l.mac == mac && Lets4(l, x) {
          Lets4Means(l, x);
          var m :| EmitsNet(l, 95, Dst4(m)) && MaskedMatches(m, x);
          LetMeans(rules, port, es, p, l, Dst4(m));
        } else if h :| h in es && h.mac == mac && HasIp(h) {
          DropMeans4(rules, port, es, p, h);
        } else {
          PlainMeans(rules, port, es, p, e);
        }
      case Ip6(x) =>
        if l :| l in es && l.mac == mac && Lets6(l, x) {
          Lets6Means(l, x);
          var m :| EmitsNet(l, 95, Dst6(m)) && MaskedMatches(m, x);
          LetMeans(rules, port, es, p, l, Dst6(m));
        } else if h :| h in es && h.mac == mac && HasIp(h) {
          DropMeans6(rules, port, es, p, h);
        } else {
          PlainMeans(rules, port, es, p, e);
        }
    }
  }

  lemma UnknownMac(rules: seq<Rule>, port: Port, es: seq<Entry>, p: Packet)
    requires AllOk(es) && es != [] && Compiled(rules, port, es) && p.outport == port
    requires forall e | e in es :: e.mac != p.ethDst
    ensures forall a :: Decides(rules, p, a) <==> a == Deny
  {
    var r := Rule(80, Match(port, None, AnyNet), Deny);
    forall q | q in rules && Matches(q.match_, p) ensures q.priority <= 80 {
      var e := FromEntry(rules, port, es, p, q);
    }
    TopDecides(rules, port, es, p, r);
  }

  lemma NonIpMeans(rules: seq<Rule>, port: Port, es: seq<Entry>, p: Packet, e: Entry)
    requires AllOk(es) && Compiled(rules, port, es) && p.outport == port
    requires e in es && e.mac == p.ethDst && p.net.NonIp?
    ensures forall a :: Decides(rules, p, a) <==> a == Allow
  {
    InRules(rules, port, es, e, 85, AnyNet);
    forall q | q in rules && Matches(q.match_, p) ensures q.priority <= 85 {
      var _ := FromEntry(rules, port, es, p, q);
    }
    TopDecides(rules, port, es, p, RuleFor(port, e, 85, AnyNet));
  }

  lemma LetMeans(rules: seq<Rule>, port: Port, es: seq<Entry>, p: Packet, e: Entry, net: NetMatch)
    requires AllOk(es) && Compiled(rules, port, es) && p.outport == port
    requires e in es && e.mac == p.ethDst && EmitsNet(e, 95, net) && NetMatches(net, p.net)
    ensures forall a :: Decides(rules, p, a) <==> a == Allow
  {
    InRules(rules, port, es, e, 95, net);
    forall q | q in rules && Matches(q.match_, p) ensures q.priority <= 95 {
      var _ := FromEntry(rules, port, es, p, q);
    }
    TopDecides(rules, port, es, p, RuleFor(port, e, 95, net));
  }

  lemma DropMeans4(rules: seq<Rule>, port: Port, es: seq<Entry>, p: Packet, e: Entry)
    requires AllOk(es) && Compiled(rules, port, es) && p.outport == port
    requires e in es && e.mac == p.ethDst && HasIp(e) && p.net.Ip4?
    requires forall l | l in es && l.mac == p.ethDst :: !Lets4(l, p.net.dst)
    ensures forall a :: Decides(rules, p, a) <==> a == Deny
  {
    InRules(rules, port, es, e, 90, Type4);
    forall q | q in rules && Matches(q.match_, p) ensures q.priority <= 90 {
      var l := FromEntry(rules, port, es, p, q);
      if q.priority != 80 {
        Lets4Means(l, p.net.dst);
        assert q.match_.net.Dst4? ==> EmitsNet(l, q.priority, Dst4(q.match_.net.m));
      }
    }
    TopDecides(rules, port, es, p, RuleFor(port, e, 90, Type4));
  }

  lemma DropMeans6(rules: seq<Rule>, port: Port, es: seq<Entry>, p: Packet, e: Entry)
    requires AllOk(es) && Compiled(rules, port, es) && p.outport == port
    requires e in es && e.mac == p.ethDst && HasIp(e) && p.net.Ip6?
    requires forall l | l in es && l.mac == p.ethDst :: !Lets6(l, p.net.dst)
    ensures forall a :: Decides(rules, p, a) <==> a == Deny
  {
    InRules(rules, port, es, e, 90, Type6);
    forall q | q in rules && Matches(q.match_, p) ensures q.priority <= 90 {
      var l := FromEntry(rules, port, es, p, q);
      if q.priority != 80 {
        Lets6Means(l, p.net.dst);
        assert q.match_.net.Dst6? ==> EmitsNet(l, q.priority, Dst6(q.match_.net.m));
      }
    }
    TopDecides(rules, port, es, p, RuleFor(port, e, 90, Type6));
  }

  lemma PlainMeans(rules: seq<Rule>, port: Port, es: seq<Entry>, p: Packet, e: Entry)
    requires AllOk(es) && Compiled(rules, port, es) && p.outport == port
    requires e in es && e.mac == p.ethDst && forall l | l in es && l.mac == p.ethDst :: !HasIp(l)
    ensures forall a :: Decides(rules, p, a) <==> a == Allow
  {
    InRules(rules, port, es, e, 85, AnyNet);
    forall q | q in rules && Matches(q.match_, p) ensures q.priority <= 85 {
      var _ := FromEntry(rules, port, es, p, q);
    }
    TopDecides(rules, port, es, p, RuleFor(port, e, 85, AnyNet));
  }

  // ----------------------------------------------------------------- the builders

  ghost predicate Uniform(rules: seq<Rule>) {
    forall r | r in rules :: r.action == ActionAt(r.priority)
  }

  datatype Part = NoIpPart | Ip4Part | Ip6Part

  function PartOf(net: NetMatch): Part {
    match net
    case AnyNet => NoIpPart
    case Type4 => Ip4Part
    case Dst4(_) => Ip4Part
    case Type6 => Ip6Part
    case Dst6(_) => Ip6Part
  }

  /** `now` is `was` and the rules of one entry that one builder adds. */
  ghost predicate AddsPart(was: seq<Rule>, now: seq<Rule>, port: Port, e: Entry, part: Part)
    requires EntryOk(e)
  {
    forall r :: r in now <==> r in was || (Emits(port, e, r) && PartOf(r.match_.net) == part)
  }

  ghost predicate Adds(was: seq<Rule>, now: seq<Rule>, r: Rule) {
    forall q :: q in now <==> q in was || q == r
  }

  lemma Emits4Push(s: seq<NetAddr>, a: NetAddr)
    requires AddrsOk(s + [a], WIDTH4)
    ensures AddrsOk(s, WIDTH4) && forall m :: Emits4(s + [a], m) <==> Emits4(s, m) || Emits4([a], m)
  {
    assert forall b :: b in s + [a] <==> b in s || b in [a];
  }

  lemma Emits6Push(s: seq<NetAddr>, a: NetAddr)
    requires AddrsOk(s + [a], WIDTH6)
    ensures AddrsOk(s, WIDTH6) && forall m :: Emits6(s + [a], m) <==> Emits6(s, m) || Emits6([a], m)
  {
    assert forall b :: b in s + [a] <==> b in s || b in [a];
  }

  function ValidEntries(parsed: seq<Option<Entry>>): seq<Entry> {
    if parsed == [] then []
    else
      var n := |parsed| - 1;
      ValidEntries(parsed[..n]) + if parsed[n].Some? then [parsed[n].value] else []
  }

  /** The flow table, with the match and action buffers the builders share. */
  class Builder {
    var rules: seq<Rule>
    var m: Match
    var action: Action

    constructor ()
      ensures rules == []
    {
      rules, m, action := [], Match("", None, AnyNet), Deny;
    }

    /** `ofctrl_add_flow`: a second flow with the same priority and match is
        dropped. */
    method AddFlow(priority: nat)
      requires Uniform(rules) && action == ActionAt(priority)
      modifies this`rules
      ensures Uniform(rules) && Adds(old(rules), rules, Rule(priority, m, action))
    {
      var i := 0;
      while i < |rules|
        invariant 0 <= i <= |rules| && rules == old(rules)
      {
        if rules[i].priority == priority && rules[i].match_ == m {
          assert rules[i] in rules && rules[i] == Rule(priority, m, action);
          return;
        }
        i := i + 1;
      }
      rules := rules + [Rule(priority, m, action)];
    }

    /** `build_out_port_sec_no_ip_flows` */
    method BuildNoIp(port: Port, e: Entry)
      requires EntryOk(e) && Uniform(rules)
      modifies this
      ensures Uniform(rules) && AddsPart(old(rules), rules, port, e, NoIpPart)
    {
      m := Match(port, None, AnyNet);
      m := m.(ethDst := Some(e.mac));
      action := Allow;
      AddFlow(85);
    }

    /** One address of `build_out_port_sec_ip4_flows`. */
    method BuildAddr4(port: Port, mac: Mac, a: NetAddr)
      requires AddrsOk([a], WIDTH4) && Uniform(rules) && action == Allow
      modifies this`rules, this`m
      ensures Uniform(rules)
      ensures forall r :: r in rules <==>
        r in old(rules) || exists k :: Emits4([a], k) && r == Rule(95, Match(port, Some(mac), Dst4(k)), Allow)
    {
      m := Match(port, None, AnyNet);
      m := m.(ethDst := Some(mac));
      m := m.(net := Type4);
      assert a in [a];
      if a.plen == WIDTH4 || a.addr % Size(a, WIDTH4) != 0 {
        if a.plen != WIDTH4 {
          m := m.(net := Dst4(Masked(Broadcast(a.addr, Size(a, WIDTH4)), 1)));
          AddFlow(95);
        }
        m := m.(net := Dst4(Masked(a.addr, 1)));
      } else {
        m := m.(net := Dst4(Masked(a.addr, Size(a, WIDTH4))));
      }
      AddFlow(95);
    }

    /** The loop of `build_out_port_sec_ip4_flows`. */
    method BuildAddrs4(port: Port, mac: Mac, s: seq<NetAddr>)
      requires AddrsOk(s, WIDTH4) && Uniform(rules) && action == Allow
      modifies this`rules, this`m
      ensures Uniform(rules)
      ensures forall r :: r in rules <==>
        r in old(rules) || exists k :: Emits4(s, k) && r == Rule(95, Match(port, Some(mac), Dst4(k)), Allow)
    {
      for j := 0 to |s|
        invariant Uniform(rules) && AddrsOk(s[..j], WIDTH4)
        invariant forall r :: r in rules <==>
          r in old(rules) || exists k :: Emits4(s[..j], k) && r == Rule(95, Match(port, Some(mac), Dst4(k)), Allow)
      {
        assert s[..j + 1] == s[..j] + [s[j]];
        Emits4Push(s[..j], s[j]);
        BuildAddr4(port, mac, s[j]);
      }
      assert s[..|s|] == s;
    }

    /** `build_out_port_sec_ip4_flows` */
    method BuildIp4(port: Port, e: Entry)
      requires EntryOk(e) && Uniform(rules)
      modifies this
      ensures Uniform(rules) && AddsPart(old(rules), rules, port, e, Ip4Part)
    {
      if e.ip4 == [] && e.ip6 == [] {
        return;
      }
      m := Match(port, None, AnyNet);
      m := m.(ethDst := Some(e.mac));
      m := m.(net := Type4);
      action := Deny;
      AddFlow(90);
      if e.ip4 == [] {
        return;
      }
      AllowIp4(port, e.mac, e.ip4);
    }

    method AllowIp4(port: Port, mac: Mac, s: seq<NetAddr>)
      requires AddrsOk(s, WIDTH4) && Uniform(rules)
      modifies this
      ensures Uniform(rules)
      ensures forall r :: r in rules <==>
        r in old(rules) || exists k :: AllowsDst4(s, k) && r == Rule(95, Match(port, Some(mac), Dst4(k)), Allow)
    {
      action := Allow;
      BuildAddrs4(port, mac, s);
      m := Match(port, None, AnyNet);
      m := m.(ethDst := Some(mac));
      m := m.(net := Dst4(LIMITED_BROADCAST));
      AddFlow(95);
      m := m.(net := Dst4(MULTICAST4));
      AddFlow(95);
    }

    /** One address of `build_out_port_sec_ip6_flows`. */
    method BuildAddr6(port: Port, mac: Mac, a: NetAddr)
      requires AddrsOk([a], WIDTH6) && Uniform(rules) && action == Allow
      modifies this`rules, this`m
      ensures Uniform(rules)
      ensures forall r :: r in rules <==>
        r in old(rules) || exists k :: Emits6([a], k) && r == Rule(95, Match(port, Some(mac), Dst6(k)), Allow)
    {
      m := Match(port, None, AnyNet);
      m := m.(ethDst := Some(mac));
      m := m.(net := Type6);
      assert a in [a];
      if a.plen == WIDTH6 || a.addr % Size(a, WIDTH6) != 0 {
        m := m.(net := Dst6(Masked(a.addr, 1)));
      } else {
        m := m.(net := Dst6(Masked(a.addr, Size(a, WIDTH6))));
      }
      AddFlow(95);
    }

    /** The loop of `build_out_port_sec_ip6_flows`. */
    method BuildAddrs6(port: Port, mac: Mac, s: seq<NetAddr>)
      requires AddrsOk(s, WIDTH6) && Uniform(rules) && action == Allow
      modifies this`rules, this`m
      ensures Uniform(rules)
      ensures forall r :: r in rules <==>
        r in old(rules) || exists k :: Emits6(s, k) && r == Rule(95, Match(port, Some(mac), Dst6(k)), Allow)
    {
      for j := 0 to |s|
        invariant Uniform(rules) && AddrsOk(s[..j], WIDTH6)
        invariant forall r :: r in rules <==>
          r in old(rules) || exists k :: Emits6(s[..j], k) && r == Rule(95, Match(port, Some(mac), Dst6(k)), Allow)
      {
        assert s[..j + 1] == s[..j] + [s[j]];
        Emits6Push(s[..j], s[j]);
        BuildAddr6(port, mac, s[j]);
      }
      assert s[..|s|] == s;
    }

    /** `build_out_port_sec_ip6_flows` */
    method BuildIp6(port: Port, e: Entry)
      requires EntryOk(e) && Uniform(rules)
      modifies this
      ensures Uniform(rules) && AddsPart(old(rules), rules, port, e, Ip6Part)
    {
      if e.ip4 == [] && e.ip6 == [] {
        return;
      }
      m := Match(port, None, AnyNet);
      m := m.(ethDst := Some(e.mac));
      m := m.(net := Type6);
      action := Deny;
      AddFlow(90);
      if e.ip6 == [] {
        return;
      }
      AllowIp6(port, e.mac, LinkLocal(e.mac), e.ip6);
    }

    method AllowIp6(port: Port, mac: Mac, lla: nat, s: seq<NetAddr>)
      requires AddrsOk(s, WIDTH6) && Uniform(rules)
      modifies this
      ensures Uniform(rules)
      ensures forall r :: r in rules <==>
        r in old(rules) || exists k :: AllowsDst6(s, lla, k) && r == Rule(95, Match(port, Some(mac), Dst6(k)), Allow)
    {
      action := Allow;
      BuildAddrs6(port, mac, s);
      m := Match(port, None, AnyNet);
      m := m.(ethDst := Some(mac));
      m := m.(net := Dst6(Masked(lla, 1)));
      AddFlow(95);
      m := m.(net := Dst6(MULTICAST6));
      AddFlow(95);
    }

    /** The out-port half of `consider_port_sec_flows`, for the valid entries of
        a port that has no rules yet. */
    method Consider(port: Port, es: seq<Entry>)
      requires AllOk(es) && Uniform(rules) && forall r | r in rules :: r.match_.outport != port
      modifies this
      ensures Uniform(rules)
      ensures es == [] ==> rules == old(rules)
      ensures forall r: Rule | r.match_.outport != port :: r in rules <==> r in old(rules)
      ensures es != [] ==> forall p: Packet | p.outport == port ::
        && (Decides(rules, p, Allow) <==> Permitted(es, p.ethDst, p.net))
        && (Decides(rules, p, Deny) <==> !Permitted(es, p.ethDst, p.net))
    {
      if es == [] {
        return;
      }
      m := Match(port, None, AnyNet);
      action := Deny;
      AddFlow(80);
      for i := 0 to |es|
        invariant Uniform(rules) && AllOk(es[..i]) && Compiled(rules, port, es[..i])
        invariant forall r: Rule | r.match_.outport != port :: r in rules <==> r in old(rules)
      {
        BuildEntry(port, es[..i], es[i]);
        assert es[..i + 1] == es[..i] + [es[i]];
      }
      assert es[..|es|] == es;
      forall p: Packet | p.outport == port
        ensures Decides(rules, p, Allow) <==> Permitted(es, p.ethDst, p.net)
        ensures Decides(rules, p, Deny) <==> !Permitted(es, p.ethDst, p.net)
      {
        CompiledMeans(rules, port, es, p);
      }
    }

    /** `consider_port_sec_flows`: entries without a MAC address are skipped, and
        a port without any valid entry gets no rules. */
    method ConsiderPort(port: Port, parsed: seq<Option<Entry>>)
      requires AllOk(ValidEntries(parsed)) && Uniform(rules) && forall r | r in rules :: r.match_.outport != port
      modifies this
      ensures Uniform(rules)
      ensures ValidEntries(parsed) == [] ==> rules == old(rules)
      ensures forall r: Rule | r.match_.outport != port :: r in rules <==> r in old(rules)
      ensures ValidEntries(parsed) != [] ==> forall p: Packet | p.outport == port ::
        && (Decides(rules, p, Allow) <==> Permitted(ValidEntries(parsed), p.ethDst, p.net))
        && (Decides(rules, p, Deny) <==> !Permitted(ValidEntries(parsed), p.ethDst, p.net))
    {
      var es := [];
      for i := 0 to |parsed|
        invariant es == ValidEntries(parsed[..i])
      {
        assert parsed[..i + 1][..i] == parsed[..i];
        if parsed[i].Some? {
          es := es + [parsed[i].value];
        }
      }
      assert parsed[..|parsed|] == parsed;
      Consider(port, es);
    }

    method BuildEntry(port: Port, ghost done: seq<Entry>, e: Entry)
      requires EntryOk(e) && Uniform(rules) && AllOk(done) && Compiled(rules, port, done)
      modifies this
      ensures Uniform(rules) && AllOk(done + [e]) && Compiled(rules, port, done + [e])
      ensures forall r: Rule | r.match_.outport != port :: r in rules <==> r in old(rules)
    {
      BuildNoIp(port, e);
      BuildIp4(port, e);
      BuildIp6(port, e);
    }
  }
}
