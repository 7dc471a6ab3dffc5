/** The heap of a user process: 127 blocks of eight words on a free list, in the library
    code of expl/library.lib. The first word of a free block links to the next one, -1
    ends the list, and word 2040 holds its head. */
module Heap {

  const LOW := 1024
  const LAST := 2032
  const HEAD := 2040
  const SIZE := 2048
  const BLOCKS := 127

  predicate IsBlock(p: int) {
    LOW <= p <= LAST && (p - LOW) % 8 == 0
  }

  /** The first n blocks. */
  function FirstBlocks(n: nat): (r: set<int>)
    requires n <= BLOCKS
    ensures forall p :: p in r <==> LOW <= p < LOW + 8 * n && (p - LOW) % 8 == 0
    ensures |r| == n
  {
    if n == 0 then {} else FirstBlocks(n - 1) + {LOW + 8 * (n - 1)}
  }

  function AllBlocks(): (r: set<int>)
    ensures forall p :: p in r <==> IsBlock(p)
  {
    set p | LOW <= p <= LAST && IsBlock(p)
  }

  lemma AllCount(n: nat)
    requires n == BLOCKS
    ensures |AllBlocks()| == n
  {
    assert FirstBlocks(n) == AllBlocks();
  }

  predicate Sized(mem: seq<int>) {
    |mem| == SIZE
  }

  /** The list that starts at p runs through exactly the blocks c and ends. */
  predicate IsChain(mem: seq<int>, p: int, c: seq<int>)
    requires Sized(mem)
    decreases |c|
  {
    if c == [] then p == -1 else p == c[0] && IsBlock(p) && IsChain(mem, mem[p], c[1..])
  }

  predicate Distinct(c: seq<int>) {
    forall i, j | 0 <= i < j < |c| :: c[i] != c[j]
  }

  function Members(c: seq<int>): (r: set<int>)
    ensures forall p :: p in r <==> p in c
  {
    set p | p in c
  }

  /** The free list is the acyclic chain c, used are the blocks handed out, and every
      block is in one of the two. */
  predicate Sound(mem: seq<int>, c: seq<int>, used: set<int>) {
    Sized(mem) && IsChain(mem, mem[HEAD], c) && Distinct(c) && Members(c) !! used && Members(c) + used == AllBlocks()
  }

  lemma {:induction false} DistinctCount(c: seq<int>)
    requires Distinct(c)
    ensures |Members(c)| == |c|
  {
    if c != [] {
      var k := |c| - 1;
      assert Distinct(c[..k]);
      DistinctCount(c[..k]);
      assert Members(c) == Members(c[..k]) + {c[k]};
    }
  }

  /** Free and allocated blocks together are always 127. */
  lemma CountIsConstant(mem: seq<int>, c: seq<int>, used: set<int>)
    requires Sound(mem, c, used)
    ensures |c| + |used| == BLOCKS
  {
    hide AllBlocks;
    DistinctCount(c);
    AllCount(BLOCKS);
    assert |Members(c) + used| == |Members(c)| + |used|;
  }

  /** There is one chain at most. */
  lemma {:induction false} ChainIsUnique(mem: seq<int>, p: int, c: seq<int>, d: seq<int>)
    requires Sized(mem) && IsChain(mem, p, c) && IsChain(mem, p, d)
    ensures c == d
    decreases |c|
  {
    if c != [] {
      ChainIsUnique(mem, mem[p], c[1..], d[1..]);
      assert c == [c[0]] + c[1..] && d == [d[0]] + d[1..];
    }
  }

  /** A write outside the chain's blocks' first words leaves the chain. */
  lemma {:induction false} ChainFrame(mem: seq<int>, mem2: seq<int>, p: int, c: seq<int>)
    requires Sized(mem) && Sized(mem2) && IsChain(mem, p, c) && forall q | q in c && 0 <= q < SIZE :: mem2[q] == mem[q]
    ensures IsChain(mem2, p, c)
    decreases |c|
  {
    if c != [] {
      ChainFrame(mem, mem2, mem[p], c[1..]);
    }
  }

  /** A chain has no block twice: it would never end. */
  lemma {:induction false} ChainIsDistinct(mem: seq<int>, p: int, c: seq<int>)
    requires Sized(mem) && IsChain(mem, p, c)
    ensures Distinct(c)
    decreases |c|
  {
    if c != [] {
      ChainIsDistinct(mem, mem[p], c[1..]);
      forall j | 1 <= j < |c| ensures c[j] != c[0] {
        Suffix(mem, p, c, j);
        if c[j] == c[0] {
          ChainIsUnique(mem, p, c, c[j..]);
        }
      }
      assert forall i, j | 1 <= i < j < |c| :: c[i] == c[1..][i - 1] && c[j] == c[1..][j - 1];
    }
  }

  lemma {:induction false} Suffix(mem: seq<int>, p: int, c: seq<int>, j: nat)
    requires Sized(mem) && IsChain(mem, p, c) && j < |c|
    ensures IsChain(mem, c[j], c[j..])
    decreases |c|
  {
    if j > 0 {
      Suffix(mem, mem[p], c[1..], j - 1);
      assert c[1..][j - 1..] == c[j..];
    } else {
      assert c[0..] == c;
    }
  }

  // ---- the three functions

  function Allocated(mem: seq<int>): (r: (seq<int>, int))
    requires Sized(mem) && IsBlock(mem[HEAD])
    ensures Sized(r.0)
  {
    (mem[HEAD := mem[mem[HEAD]]], mem[HEAD])
  }

  function Freed(mem: seq<int>, p: int): (r: seq<int>)
    requires Sized(mem) && 0 <= p < SIZE
    ensures Sized(r)
  {
    mem[HEAD := p][p := mem[HEAD]]
  }

  lemma FreeAreBlocks(mem: seq<int>, c: seq<int>, used: set<int>)
    requires Sound(mem, c, used)
    ensures forall q | q in c :: IsBlock(q) && q != HEAD && q !in used
    ensures forall q | q in used :: IsBlock(q) && q != HEAD && q !in c
  {
    hide AllBlocks, IsChain;
    forall q | q in c ensures IsBlock(q) && q != HEAD && q !in used {
      assert q in Members(c);
    }
    forall q | q in used ensures IsBlock(q) && q != HEAD && q !in c {
      assert q in AllBlocks() && (q in c ==> q in Members(c));
    }
  }

  /** Alloc on a list that is not empty hands out a block that was free. */
  lemma AllocKeeps(mem: seq<int>, c: seq<int>, used: set<int>)
    requires Sound(mem, c, used) && c != []
    ensures IsBlock(mem[HEAD])
    ensures var (mem2, p) := Allocated(mem);
            p == c[0] && p !in used && Sound(mem2, c[1..], used + {p})
  {
    hide AllBlocks;
    FreeAreBlocks(mem, c, used);
    TailApart(c);
    var (mem2, p) := Allocated(mem);
    assert forall q | q in c[1..] :: q in Members(c[1..]) && q in Members(c) && q != HEAD;
    ChainFrame(mem, mem2, mem[p], c[1..]);
  }

  lemma TailApart(c: seq<int>)
    requires Distinct(c) && c != []
    ensures Distinct(c[1..]) && c[0] !in c[1..] && Members(c) == {c[0]} + Members(c[1..])
  {
    assert c == [c[0]] + c[1..];
    assert forall i | 0 <= i < |c[1..]| :: c[1..][i] == c[i + 1];
  }

  lemma HeadApart(p: int, c: seq<int>)
    requires Distinct(c) && p !in c
    ensures Distinct([p] + c) && Members([p] + c) == {p} + Members(c)
  {
  }

  lemma FreeKeeps(mem: seq<int>, c: seq<int>, used: set<int>, p: int)
    requires Sound(mem, c, used) && p in used
    ensures IsBlock(p) && Sound(Freed(mem, p), [p] + c, used - {p})
  {
    hide AllBlocks;
    FreeAreBlocks(mem, c, used);
    var mem2 := Freed(mem, p);
    ChainFrame(mem, mem2, mem[HEAD], c);
    assert ([p] + c)[1..] == c;
    HeadApart(p, c);
  }

  /** The heap is sound with some chain and some set of blocks handed out. */
  ghost predicate SomeSound(mem: seq<int>) {
    exists c, used :: Sound(mem, c, used)
  }

  /** Free keeps the heap sound exactly when the block it is given is allocated: freeing a
      free block closes the list into a ring. */
  lemma FreeKeepsIffAllocated(mem: seq<int>, c: seq<int>, used: set<int>, p: int)
    requires Sound(mem, c, used) && IsBlock(p)
    ensures SomeSound(Freed(mem, p)) <==> p in used
  {
    hide AllBlocks;
    hide IsChain, Distinct;
    if p in used {
      FreeKeeps(mem, c, used, p);
    } else {
      if d, u :| Sound(Freed(mem, p), d, u) {
        NoFreeTwice(mem, c, used, p, d, u);
      }
    }
  }

  lemma NoFreeTwice(mem: seq<int>, c: seq<int>, used: set<int>, p: int, d: seq<int>, u: set<int>)
    requires Sound(mem, c, used) && IsBlock(p) && p !in used
    ensures !Sound(Freed(mem, p), d, u)
  {
    hide AllBlocks;
    var mem2 := Freed(mem, p);
    assert p in AllBlocks() && p in Members(c);
    FreeAreBlocks(mem, c, used);
    var i :| 0 <= i < |c| && c[i] == p;
    if Sound(mem2, d, u) {
      assert d != [] && d[0] == p;
      HeadLeadsTo(mem, mem2, mem[HEAD], c, i, d[1..]);
      TailApart(d);
    }
  }

  /** Following the old list from its head in the new memory comes to p again. */
  lemma {:induction false} HeadLeadsTo(mem: seq<int>, mem2: seq<int>, h: int, c: seq<int>, i: nat, d: seq<int>)
    requires Sized(mem) && Sized(mem2) && IsChain(mem, h, c) && i < |c| && IsChain(mem2, h, d)
    requires forall q | q in c && q != c[i] && 0 <= q < SIZE :: mem2[q] == mem[q]
    ensures c[i] in d
    decreases |c|
  {
    if i > 0 && c[0] != c[i] {
      assert mem2[h] == mem[h];
      HeadLeadsTo(mem, mem2, mem[h], c[1..], i - 1, d[1..]);
    }
  }

  // ---- whole runs

  /** The library's calls, and a store of the program into a block it holds. */
  datatype Op = Alloc | Free(p: int) | Write(a: int, v: int)

  predicate InUsed(a: int, used: set<int>) {
    exists p | p in used :: p <= a < p + 8
  }

  /** The program frees and writes only blocks that it holds. */
  predicate Allowed(c: seq<int>, used: set<int>, op: Op) {
    match op
    case Alloc => c != []
    case Free(p) => p in used
    case Write(a, _) => InUsed(a, used)
  }

  datatype State = State(mem: seq<int>, free: seq<int>, used: set<int>)

  predicate Good(s: State) {
    Sound(s.mem, s.free, s.used)
  }

  function Applied(s: State, op: Op): State
    requires Good(s) && Allowed(s.free, s.used, op)
  {
    match op
    case Alloc => State(s.mem[HEAD := s.mem[s.free[0]]], s.free[1..], s.used + {s.free[0]})
    case Free(p) => State(s.mem[HEAD := p][p := s.mem[HEAD]], [p] + s.free, s.used - {p})
    case Write(a, v) => State(s.mem[a := v], s.free, s.used)
  }

  lemma StepKeeps(s: State, op: Op)
    requires Good(s) && Allowed(s.free, s.used, op)
    ensures Good(Applied(s, op))
    ensures op.Alloc? ==> s.mem[HEAD] !in s.used && Applied(s, op).mem == Allocated(s.mem).0 && s.free[0] == Allocated(s.mem).1
  {
    hide AllBlocks;
    match op {
      case Alloc => AllocKeeps(s.mem, s.free, s.used);
      case Free(p) => FreeKeeps(s.mem, s.free, s.used, p);
      case Write(a, v) =>
        var p :| p in s.used && p <= a < p + 8;
        assert p in AllBlocks();
        forall q | q in s.free && 0 <= q < SIZE ensures s.mem[a := v][q] == s.mem[q] {
          assert q in AllBlocks() && q != p;
          BlocksApart(p, q, a);
        }
        ChainFrame(s.mem, s.mem[a := v], s.mem[HEAD], s.free);
    }
  }

  /** Blocks do not overlap. */
  lemma BlocksApart(p: int, q: int, a: int)
    requires IsBlock(p) && IsBlock(q) && p != q && p <= a < p + 8
    ensures a != q && a != HEAD
  {
  }

  ghost function After(s: State, op: Op): (r: State)
    requires Good(s) && Allowed(s.free, s.used, op)
    ensures Good(r)
  {
    StepKeeps(s, op);
    Applied(s, op)
  }

  ghost predicate Possible(s: State, ops: seq<Op>)
    requires Good(s)
    decreases |ops|
  {
    ops == [] || (Allowed(s.free, s.used, ops[0]) && Possible(After(s, ops[0]), ops[1..]))
  }

  ghost function Outcome(s: State, ops: seq<Op>): (r: State)
    requires Good(s) && Possible(s, ops)
    ensures Good(r)
    decreases |ops|
  {
    if ops == [] then s else Outcome(After(s, ops[0]), ops[1..])
  }

  /** Over any run free plus allocated stays 127, the chain stays acyclic, and a block that
      is handed out and not freed again in the run is not handed out a second time. */
  lemma {:induction false} RunKeeps(s: State, ops: seq<Op>, p: int)
    requires Good(s) && Possible(s, ops)
    ensures IsChain(Outcome(s, ops).mem, Outcome(s, ops).mem[HEAD], Outcome(s, ops).free) && Distinct(Outcome(s, ops).free)
    ensures |Outcome(s, ops).free| + |Outcome(s, ops).used| == BLOCKS
    ensures p in s.used && (forall i | 0 <= i < |ops| :: ops[i] != Free(p)) ==> p in Outcome(s, ops).used && p !in Outcome(s, ops).free
    decreases |ops|
  {
    hide Good, Allowed;
    if ops == [] {
      GoodMeans(s);
      if p in s.used {
        GoodIsApart(s, p);
      }
    } else {
      RunKeeps(After(s, ops[0]), ops[1..], p);
      assert forall i | 0 <= i < |ops[1..]| :: ops[1..][i] == ops[i + 1];
    }
  }

  lemma GoodMeans(s: State)
    requires Good(s)
    ensures |s.free| + |s.used| == BLOCKS && IsChain(s.mem, s.mem[HEAD], s.free) && Distinct(s.free)
  {
    CountIsConstant(s.mem, s.free, s.used);
  }

  lemma GoodIsApart(s: State, p: int)
    requires Good(s) && p in s.used
    ensures p !in s.free
  {
    assert p in Members(s.free) <==> p in s.free;
  }

  // ---- the code

  class Area {
    const mem: array<int>

    constructor (memory: array<int>)
      requires memory.Length == SIZE
      ensures mem == memory
    {
      mem := memory;
    }

    ghost predicate Valid() {
      mem.Length == SIZE
    }

    /** Heapset: clear, link, end the list and set its head. */
    method Heapset()
      requires Valid()
      modifies mem
      ensures Sound(mem[..], seq(BLOCKS, i => LOW + 8 * i), {})
      ensures forall a | 0 <= a < LOW :: mem[a] == old(mem[a])
    {
      hide AllBlocks;
      var r0 := LOW;
      while r0 <= 2047
        invariant LOW <= r0 <= SIZE && forall a | 0 <= a < LOW :: mem[a] == old(mem[a])
      {
        mem[r0] := -1;
        r0 := r0 + 1;
      }
      r0 := LOW;
      var r1 := 1032;
      while r0 <= 2047
        invariant LOW <= r0 <= SIZE && (r0 - LOW) % 8 == 0 && r1 == r0 + 8
        invariant forall a | 0 <= a < LOW :: mem[a] == old(mem[a])
        invariant forall i | 0 <= i && LOW + 8 * i < r0 :: mem[LOW + 8 * i] == LOW + 8 * i + 8
      {
        mem[r0] := r1;
        r1 := r1 + 8;
        r0 := r0 + 8;
      }
      mem[LAST] := -1;
      mem[HEAD] := LOW;
      Linked(mem[..], 0);
    }

    /** Alloc on a list that is not empty. */
    method Alloc(ghost c: seq<int>, ghost used: set<int>) returns (p: int)
      requires Valid() && Sound(mem[..], c, used) && c != []
      modifies mem
      ensures p == c[0] && p !in used && Sound(mem[..], c[1..], used + {p})
      ensures mem[..] == Allocated(old(mem[..])).0
    {
      AllocKeeps(mem[..], c, used);
      p := mem[HEAD];
      var r1 := mem[p];
      mem[HEAD] := r1;
    }

    /** Free takes any address; it is right about an allocated block. */
    method Free(p: int, ghost c: seq<int>, ghost used: set<int>)
      requires Valid() && 0 <= p < SIZE
      modifies mem
      ensures mem[..] == Freed(old(mem[..]), p)
      ensures Sound(old(mem[..]), c, used) && p in used ==> IsBlock(p) && Sound(mem[..], [p] + c, used - {p})
    {
      if Sound(mem[..], c, used) && p in used {
        FreeKeeps(mem[..], c, used, p);
      }
      var r1 := mem[HEAD];
      mem[HEAD] := p;
      mem[p] := r1;
    }
  }

  /** Links from block to block make the whole chain. */
  lemma {:induction false} Linked(mem: seq<int>, n: nat)
    requires Sized(mem) && n < BLOCKS && mem[LAST] == -1
    requires forall i | 0 <= i < BLOCKS - 1 :: mem[LOW + 8 * i] == LOW + 8 * i + 8
    ensures IsChain(mem, LOW + 8 * n, seq(BLOCKS - n, i => LOW + 8 * (n + i)))
    ensures n == 0 && mem[HEAD] == LOW ==> Sound(mem, seq(BLOCKS, i => LOW + 8 * i), {})
    decreases BLOCKS - n
  {
    hide AllBlocks;
    var c := seq(BLOCKS - n, i => LOW + 8 * (n + i));
    if n < BLOCKS - 1 {
      Linked(mem, n + 1);
      assert c[1..] == seq(BLOCKS - n - 1, i => LOW + 8 * (n + 1 + i));
    } else {
      assert c[1..] == [];
    }
    if n == 0 && mem[HEAD] == LOW {
      var all := seq(BLOCKS, i => LOW + 8 * i);
      assert all == c;
      forall p | p in AllBlocks() ensures p in Members(all) {
        assert all[(p - LOW) / 8] == p;
      }
      assert Members(all) + {} == AllBlocks();
    }
  }
}
