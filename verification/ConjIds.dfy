/** controller/lflow-conj-ids.c: blocks of conjunction ids for logical flows. */
module ConjIds {
  import opened Ints
  import opened Lists

  type Uuid = nat

  datatype Owner = Owner(lflow: Uuid, dp: Uuid)

  /** `start_conj_id` and `n_conjs` of `struct lflow_conj_node` */
  datatype Block = Block(start: nat, n: nat)

  /** Conjunction ids are uint32_t; 0 is never handed out. */
  predicate Fits(b: Block) {
    1 <= b.start && 1 <= b.n && b.start + b.n <= UINT32
  }

  predicate Has(b: Block, id: nat) {
    b.start <= id < b.start + b.n
  }

  function Ids(b: Block): set<nat> {
    set id | 0 <= id < b.start + b.n && Has(b, id)
  }

  function Next(id: nat): nat {
    (id + 1) % UINT32
  }

  // ------------------------------------------------------------- the cyclic scan

  ghost predicate Free(taken: set<nat>, b: Block) {
    Fits(b) && forall id | Has(b, id) :: id !in taken
  }

  /** Blocks that contain the first id tried, but not as their first id, are
      never considered. */
  ghost predicate Candidate(first: nat, b: Block) {
    !(b.start < first < b.start + b.n)
  }

  /** Position in the order in which starting points are tried. */
  ghost function Turn(first: nat, id: nat): int {
    if id >= first then id - first else id - first + UINT32
  }

  /** The order starts with `first` and goes up by one, and from the greatest id on
      with 1. */
  lemma TurnMeans(first: nat, id: nat)
    requires 1 <= first < UINT32 && 1 <= id < UINT32
    ensures Turn(first, first) == 0 <= Turn(first, id)
    ensures var next := if id + 1 < UINT32 then id + 1 else 1;
      next != first ==> Turn(first, id) < Turn(first, next)
  {
  }

  /** Block `b` is the first free candidate. */
  ghost predicate FirstFree(taken: set<nat>, first: nat, b: Block) {
    && Free(taken, b) && Candidate(first, b)
    && forall s | Turn(first, s) < Turn(first, b.start) && Candidate(first, Block(s, b.n)) ::
      !Free(taken, Block(s, b.n))
  }

  ghost predicate NoneFree(taken: set<nat>, first: nat, n: nat) {
    forall s | Candidate(first, Block(s, n)) :: !Free(taken, Block(s, n))
  }

  lemma FirstFreeUnique(taken: set<nat>, first: nat, a: Block, b: Block)
    requires FirstFree(taken, first, a) && FirstFree(taken, first, b) && a.n == b.n && 1 <= first < UINT32
    ensures a == b
  {
    assert a == Block(a.start, b.n) && b == Block(b.start, a.n);
  }

  /** The comment at the head of the allocator says it fails if no ids are
      available. For single ids that is right. */
  lemma SingleNoneFree(taken: set<nat>, first: nat)
    ensures NoneFree(taken, first, 1) <==> forall id | 1 <= id < UINT32 :: id in taken
  {
    if NoneFree(taken, first, 1) {
      forall id | 1 <= id < UINT32 ensures id in taken {
        assert Candidate(first, Block(id, 1)) && !Free(taken, Block(id, 1));
      }
    } else {
      var s :| Candidate(first, Block(s, 1)) && Free(taken, Block(s, 1));
      assert Has(Block(s, 1), s);
    }
  }

  /** For two ids it is not, if all are taken but the first one tried and the one
      before it. */
  lemma AroundFirst(taken: set<nat>, first: nat)
    requires 2 <= first < UINT32 && forall id :: id in taken <==> 1 <= id < UINT32 && id != first - 1 && id != first
    ensures NoneFree(taken, first, 2) && Free(taken, Block(first - 1, 2))
  {
    forall s | Candidate(first, Block(s, 2)) && Fits(Block(s, 2)) ensures !Free(taken, Block(s, 2)) {
      var id := if s == first then s + 1 else s;
      assert Has(Block(s, 2), id) && id in taken;
    }
  }

  /** How trying one block ends: all its ids are available, one is taken, the
      ids wrap around, or the first id tried is reached again. */
  datatype Scan = Available | Taken(id: nat) | Wrapped | Done

  method ScanBlock(taken: set<nat>, first: nat, initial: bool, start: nat, n: nat) returns (r: Scan)
    requires 1 <= first < UINT32 && 1 <= start < UINT32 && 1 <= n < UINT32 && (initial ==> start == first)
    ensures r.Available? ==> Free(taken, Block(start, n)) && (initial || !Has(Block(start, n), first))
    ensures r.Taken? ==>
      Has(Block(start, n), r.id) && r.id in taken && r.id < UINT32 && (initial || !(start <= first <= r.id))
    ensures r.Wrapped? ==> start + n > UINT32 && (initial || first < start)
    ensures r.Done? ==> !initial && Has(Block(start, n), first)
  {
    var id := start;
    var atFirst := initial;
    for i := 0 to n
      invariant id == (start + i) % UINT32 && start + i <= UINT32
      invariant atFirst == (initial && i == 0)
      invariant forall k | start <= k < start + i :: k !in taken
      invariant !initial ==> !(start <= first < start + i)
    {
      if id == 0 {
        return Wrapped;
      }
      if !atFirst && id == first {
        return Done;
      }
      atFirst := false;
      if id in taken {
        return Taken(id);
      }
      id := Next(id);
    }
    return Available;
  }

  /** The search of `lflow_conj_ids_alloc`. */
  method FindBlock(taken: set<nat>, hash: nat, n: nat) returns (start: nat)
    requires hash < UINT32 && 1 <= n < UINT32
    ensures var first := if hash == 0 then 1 else hash;
      if start == 0 then NoneFree(taken, first, n) else FirstFree(taken, first, Block(start, n))
  {
    start := if hash == 0 then 1 else hash;
    var first := start;
    var initial := true;
    ghost var wrapped := false;
    while true
      invariant 1 <= first < UINT32 && start < UINT32
      invariant initial ==> start == first && !wrapped
      invariant wrapped ==> 1 <= start <= first
      invariant !wrapped && start != 0 ==> first <= start
      invariant !initial && !wrapped && start != 0 ==> first < start
      invariant Blocked(taken, first, n, first, if wrapped || start == 0 then UINT32 else start)
      invariant wrapped ==> Blocked(taken, first, n, 1, start)
      decreases if wrapped then 0 else 1, if start == 0 then 0 else if wrapped then first - start else UINT32 - start
    {
      if start == 0 {
        start := 1;
        wrapped := true;
      }
      var r := ScanBlock(taken, first, initial, start, n);
      initial := false;
      match r {
        case Available =>
          return;
        case Done =>
          return 0;
        case Taken(id) =>
          start := Next(id);
        case Wrapped =>
          start := 1;
          wrapped := true;
      }
    }
  }

  ghost predicate Blocked(taken: set<nat>, first: nat, n: nat, lo: nat, hi: nat) {
    forall s | lo <= s < hi && Candidate(first, Block(s, n)) :: !Free(taken, Block(s, n))
  }

  // --------------------------------------------------------- the three indexes

  ghost predicate Covered(blocks: map<Owner, Block>, id: nat) {
    exists k | k in blocks :: Has(blocks[k], id)
  }

  /** The ids in use are the disjoint union of the recorded blocks. */
  ghost predicate Partition(inUse: set<nat>, blocks: map<Owner, Block>) {
    && (forall k | k in blocks :: Fits(blocks[k]))
    && (forall j, k | j in blocks && k in blocks && j != k :: Ids(blocks[j]) !! Ids(blocks[k]))
    && (forall id :: id in inUse <==> Covered(blocks, id))
  }

  /** The per-lflow lists are the blocks grouped by logical flow. */
  ghost predicate Grouped(blocks: map<Owner, Block>, dps: map<Uuid, seq<Uuid>>) {
    && (forall l | l in dps :: NoDup(dps[l]))
    && (forall k | k in blocks :: k.lflow in dps && k.dp in dps[k.lflow])
    && (forall l, d | l in dps && d in dps[l] :: Owner(l, d) in blocks)
  }

  lemma PartitionRemove(inUse: set<nat>, blocks: map<Owner, Block>, k: Owner)
    requires Partition(inUse, blocks) && k in blocks
    ensures Partition(inUse - Ids(blocks[k]), blocks - {k})
  {
    var blocks' := blocks - {k};
    forall id
      ensures id in inUse - Ids(blocks[k]) <==> Covered(blocks', id)
    {
      if id in inUse - Ids(blocks[k]) {
        var j :| j in blocks && Has(blocks[j], id);
        assert j in blocks' && Has(blocks'[j], id);
      }
      if Covered(blocks', id) {
        var j :| j in blocks' && Has(blocks'[j], id);
        assert j in blocks && id in Ids(blocks[j]);
      }
    }
  }

  lemma PartitionInsert(inUse: set<nat>, blocks: map<Owner, Block>, k: Owner, b: Block)
    requires Partition(inUse, blocks) && k !in blocks && Free(inUse, b)
    ensures Partition(inUse + Ids(b), blocks[k := b])
  {
    var blocks' := blocks[k := b];
    forall id
      ensures id in inUse + Ids(b) <==> Covered(blocks', id)
    {
      if id in Ids(b) {
        assert Has(blocks'[k], id);
      } else if id in inUse {
        var j :| j in blocks && Has(blocks[j], id);
        assert Has(blocks'[j], id);
      }
      if Covered(blocks', id) {
        var j :| j in blocks' && Has(blocks'[j], id);
        if j != k {
          assert Has(blocks[j], id);
        }
      }
    }
    forall j | j in blocks
      ensures Ids(blocks[j]) !! Ids(b)
    {
      forall id | id in Ids(blocks[j]) ensures id !in Ids(b) {
        assert Has(blocks[j], id);
      }
    }
  }

  lemma GroupedRemove(blocks: map<Owner, Block>, dps: map<Uuid, seq<Uuid>>, k: Owner)
    requires Grouped(blocks, dps) && k in blocks
    ensures Grouped(blocks - {k}, dps[k.lflow := Without(dps[k.lflow], k.dp)])
  {
    WithoutNoDup(dps[k.lflow], k.dp);
  }

  lemma GroupedInsert(blocks: map<Owner, Block>, dps: map<Uuid, seq<Uuid>>, k: Owner, b: Block)
    requires Grouped(blocks, dps) && k !in blocks
    ensures Grouped(blocks[k := b], dps[k.lflow := (if k.lflow in dps then dps[k.lflow] else []) + [k.dp]])
  {
    if k.lflow in dps {
      PushNoDup(dps[k.lflow], k.dp);
    }
  }

  /** Dropping the blocks of a logical flow releases precisely its ids. */
  lemma FreedIds(inUse: set<nat>, blocks: map<Owner, Block>, inUse': set<nat>, blocks': map<Owner, Block>, l: Uuid)
    requires Partition(inUse, blocks) && Partition(inUse', blocks')
    requires blocks' == map k | k in blocks && k.lflow != l :: blocks[k]
    ensures forall id :: id in inUse' <==> id in inUse && forall k | k in blocks && k.lflow == l :: !Has(blocks[k], id)
  {
    forall id
      ensures id in inUse' <==> id in inUse && forall k | k in blocks && k.lflow == l :: !Has(blocks[k], id)
    {
      if id in inUse' {
        var j :| j in blocks' && Has(blocks'[j], id);
        assert Has(blocks[j], id) && id in Ids(blocks[j]);
        forall k | k in blocks && k.lflow == l ensures !Has(blocks[k], id) {
          assert id !in Ids(blocks[k]);
        }
      }
      if id in inUse && forall k | k in blocks && k.lflow == l :: !Has(blocks[k], id) {
        var j :| j in blocks && Has(blocks[j], id);
        assert Has(blocks'[j], id);
      }
    }
  }

  function IdsAt(blocks: map<Owner, Block>, k: Owner): set<nat> {
    if k in blocks then Ids(blocks[k]) else {}
  }

  /** `struct conj_ids` */
  class Allocator {
    var inUse: set<nat>
    var blocks: map<Owner, Block>
    var dps: map<Uuid, seq<Uuid>>

    ghost predicate Valid()
      reads this
    {
      Partition(inUse, blocks) && Grouped(blocks, dps)
    }

    /** `lflow_conj_ids_init` */
    constructor ()
      ensures Valid() && blocks == map[] && inUse == {} && dps == map[]
    {
      inUse, blocks, dps := {}, map[], map[];
    }

    /** `lflow_conj_ids_insert_` */
    method Insert(k: Owner, b: Block)
      requires Valid() && k !in blocks && Free(inUse, b)
      modifies this
      ensures Valid()
      ensures blocks == old(blocks)[k := b] && inUse == old(inUse) + Ids(b)
      ensures dps == old(dps)[k.lflow := (if k.lflow in old(dps) then old(dps)[k.lflow] else []) + [k.dp]]
    {
      PartitionInsert(inUse, blocks, k, b);
      GroupedInsert(blocks, dps, k, b);
      var id := b.start;
      for i := 0 to b.n
        invariant id == (b.start + i) % UINT32 && b.start + i <= UINT32
        invariant inUse == old(inUse) + Ids(Block(b.start, i))
        invariant blocks == old(blocks) && dps == old(dps)
      {
        assert id != 0;
        inUse := inUse + {id};
        id := Next(id);
      }
      blocks := blocks[k := b];
      var list := if k.lflow in dps then dps[k.lflow] else [];
      dps := dps[k.lflow := list + [k.dp]];
    }

    /** `lflow_conj_ids_free_` */
    method FreeBlock(k: Owner)
      requires Valid() && k in blocks
      modifies this
      ensures Valid()
      ensures blocks == old(blocks) - {k} && inUse == old(inUse) - Ids(old(blocks)[k])
      ensures dps == old(dps)[k.lflow := Without(old(dps)[k.lflow], k.dp)]
    {
      PartitionRemove(inUse, blocks, k);
      GroupedRemove(blocks, dps, k);
      var b := blocks[k];
      var id := b.start;
      for i := 0 to b.n
        invariant id == (b.start + i) % UINT32 && b.start + i <= UINT32
        invariant inUse == old(inUse) - Ids(Block(b.start, i))
        invariant blocks == old(blocks) && dps == old(dps)
      {
        assert id != 0;
        inUse := inUse - {id};
        id := Next(id);
      }
      blocks := blocks - {k};
      dps := dps[k.lflow := Without(dps[k.lflow], k.dp)];
    }

    /** `lflow_conj_ids_free_for_lflow_dp` */
    method FreeForLflowDp(k: Owner)
      requires Valid()
      modifies this
      ensures Valid() && dps.Keys == old(dps).Keys
      ensures blocks == old(blocks) - {k} && inUse == old(inUse) - IdsAt(old(blocks), k)
    {
      if k in blocks {
        FreeBlock(k);
      }
    }

    /** `lflow_conj_ids_alloc`: the owner's earlier block, if any, is given up
        first. */
    method Alloc(k: Owner, hash: nat, n: nat) returns (start: nat)
      requires Valid() && hash < UINT32 && n < UINT32
      modifies this
      ensures Valid()
      ensures n == 0 ==> start == 0 && unchanged(this)
      ensures n > 0 ==>
        var first := if hash == 0 then 1 else hash;
        var before := old(inUse) - IdsAt(old(blocks), k);
        if start == 0 then
          NoneFree(before, first, n) && blocks == old(blocks) - {k} && inUse == before
        else
          FirstFree(before, first, Block(start, n)) && blocks == old(blocks)[k := Block(start, n)] &&
          inUse == before + Ids(Block(start, n))
    {
      if n == 0 {
        return 0;
      }
      FreeForLflowDp(k);
      start := FindBlock(inUse, hash, n);
      if start != 0 {
        Insert(k, Block(start, n));
      }
    }

    /** `lflow_conj_ids_alloc_specified` */
    method AllocSpecified(k: Owner, start: nat, n: nat) returns (ok: bool)
      requires Valid() && start < UINT32 && n < UINT32
      modifies this
      ensures Valid()
      ensures n == 0 ==> !ok && unchanged(this)
      ensures n > 0 ==>
        var before := old(inUse) - IdsAt(old(blocks), k);
        && (ok <==> Free(before, Block(start, n)))
        && (ok ==> blocks == old(blocks)[k := Block(start, n)] && inUse == before + Ids(Block(start, n)))
        && (!ok ==> blocks == old(blocks) - {k} && inUse == before)
    {
      if n == 0 {
        return false;
      }
      FreeForLflowDp(k);
      ok := Available(start, n);
      if ok {
        Insert(k, Block(start, n));
      }
    }

    /** The loop of `lflow_conj_ids_alloc_specified`. */
    method Available(start: nat, n: nat) returns (ok: bool)
      requires start < UINT32 && 1 <= n < UINT32
      ensures ok <==> Free(inUse, Block(start, n))
    {
      var id := start;
      for i := 0 to n
        invariant id == (start + i) % UINT32 && start + i <= UINT32
        invariant i > 0 ==> start > 0
        invariant forall c | start <= c < start + i :: c !in inUse
      {
        if id == 0 {
          return false;
        }
        if id in inUse {
          assert Has(Block(start, n), id);
          return false;
        }
        id := Next(id);
      }
      return true;
    }

    /** `lflow_conj_ids_find` */
    method Find(k: Owner) returns (start: nat)
      requires Valid()
      ensures start == 0 <==> k !in blocks
      ensures start != 0 ==> start == blocks[k].start
    {
      start := if k in blocks then blocks[k].start else 0;
    }

    /** `lflow_conj_ids_free` */
    method FreeLflow(l: Uuid)
      requires Valid()
      modifies this
      ensures Valid() && dps == old(dps) - {l}
      ensures blocks == map k | k in old(blocks) && k.lflow != l :: old(blocks)[k]
      ensures forall id :: id in inUse <==>
        id in old(inUse) && forall k | k in old(blocks) && k.lflow == l :: !Has(old(blocks)[k], id)
    {
      ghost var was, wasInUse := blocks, inUse;
      if l in dps {
        FreeList(l);
        dps := dps - {l};
      }
      assert blocks == map k | k in was && k.lflow != l :: was[k];
      FreedIds(wasInUse, was, inUse, blocks, l);
    }

    /** The loop of `lflow_conj_ids_free`. */
    method FreeList(l: Uuid)
      requires Valid() && l in dps
      modifies this
      ensures Valid() && l in dps && dps[l] == [] && dps - {l} == old(dps) - {l}
      ensures forall k | k in blocks :: k in old(blocks) && blocks[k] == old(blocks)[k]
      ensures forall k | k in old(blocks) && k !in blocks :: k.lflow == l
    {
      while dps[l] != []
        invariant Valid() && l in dps && dps - {l} == old(dps) - {l}
        invariant forall k | k in blocks :: k in old(blocks) && blocks[k] == old(blocks)[k]
        invariant forall k | k in old(blocks) && k !in blocks :: k.lflow == l
        decreases |dps[l]|
      {
        FreeBlock(Owner(l, dps[l][0]));
      }
    }
  }

  /** Every id but `first - 1` and `first` is taken. */
  method TakeAround(first: nat) returns (a: Allocator)
    requires 2 <= first < UINT32
    ensures fresh(a) && a.Valid() && a.blocks.Keys <= {Owner(1, 0), Owner(2, 0)}
    ensures forall id :: id in a.inUse <==> 1 <= id < UINT32 && id != first - 1 && id != first
  {
    a := new Allocator();
    var _ := a.AllocSpecified(Owner(1, 0), 1, first - 2);
    if first + 1 < UINT32 {
      var _ := a.AllocSpecified(Owner(2, 0), first + 1, UINT32 - first - 1);
    }
  }

  /** Wherever the search starts, past id 1, an allocator can fail to find a block
      of two ids while one is free. */
  method MissesFreeBlock(first: nat) returns (a: Allocator, start: nat)
    requires 2 <= first < UINT32
    ensures a.Valid() && start == 0 && Free(a.inUse, Block(first - 1, 2))
  {
    a := TakeAround(first);
    AroundFirst(a.inUse, first);
    start := a.Alloc(Owner(3, 0), first, 2);
  }
}
