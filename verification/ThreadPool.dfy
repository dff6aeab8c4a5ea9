/** src/EventLoopThreadPoll.cpp: which loop serves the next connection.  Loops are numbered; 0 is the base
    loop, the sub-loops are 1, 2, and so on. */
module ThreadPools {
  import opened ConnNames

  /** The loop given out by the n-th call (from 0) when there are `subLoops` sub-loops. */
  function LoopOfCall(subLoops: nat, n: nat): (loop: nat) {
    if subLoops == 0 then 0 else 1 + n % subLoops
  }

  class EventLoopThreadPoll {
    const baseLoop: nat
    const name: string
    var threads: seq<string>  // threads_, by their names
    var inits: seq<nat>       // the loops the init callback was called with
    var loops: seq<nat>
    var next: nat
    ghost var calls: nat

    ghost predicate Valid()
      reads this
    {
      && baseLoop == 0
      && (forall i :: 0 <= i < |loops| ==> loops[i] == i + 1)
      && next == (if loops == [] then 0 else calls % |loops|)
    }

    constructor (name: string)
      ensures Valid() && loops == [] && threads == [] && inits == [] && calls == 0 && this.name == name
    {
      baseLoop, this.name := 0, name;
      loops, threads, inits, next, calls := [], [], [], 0, 0;
    }

    /** start(): one sub-loop per thread, each thread under its own name.  The init callback, if there is
        one, is called with every sub-loop, or with the base loop when that is the only one. */
    method Start(numThreads: nat, hasInit: bool)
      requires Valid() && loops == [] && threads == [] && inits == [] && calls == 0 && numThreads <= INT_MAX
      modifies this`loops, this`threads, this`inits
      ensures Valid() && |loops| == |threads| == numThreads
      ensures forall i, j :: 0 <= i < j < numThreads ==> threads[i] != threads[j]
      ensures forall i :: 0 <= i < numThreads ==> threads[i] == name + Decimal(i)
      ensures inits == if !hasInit then [] else if numThreads == 0 then [baseLoop] else loops
    {
      hide Decimal, Snprintf;
      var i := 0;
      while i < numThreads
        invariant i <= numThreads && |loops| == |threads| == i
        invariant forall j :: 0 <= j < i ==> loops[j] == j + 1 && threads[j] == name + Decimal(j)
        invariant inits == if hasInit then loops else []
      {
        NameFits(name, i);
        threads := threads + [Snprintf(|name| + 32, name + Decimal(i))];
        if hasInit {
          inits := inits + [i + 1];
        }
        loops := loops + [i + 1];
        i := i + 1;
      }
      if numThreads == 0 && hasInit {
        inits := [baseLoop];
      }
      forall i, j | 0 <= i < j < numThreads ensures threads[i] != threads[j] {
        NamesOfThreadsDiffer(name, i, j);
      }
    }

    method GetNextLoop() returns (loop: nat)
      requires Valid()
      modifies this`next, this`calls
      ensures Valid() && calls == old(calls) + 1
      ensures loop == LoopOfCall(|loops|, old(calls))
    {
      loop := baseLoop;
      if loops != [] {
        StepDivMod(calls, |loops|);
        loop := loops[next];
        next := next + 1;
        if next >= |loops| {
          next := 0;
        }
      }
      calls := calls + 1;
    }
  }

  /** The buffer for a thread name never cuts it. */
  lemma NameFits(name: string, i: nat)
    requires i <= INT_MAX
    ensures Snprintf(|name| + 32, name + Decimal(i)) == name + Decimal(i)
  {
    DecimalBelowIntMax(i);
  }

  lemma NamesOfThreadsDiffer(name: string, i: nat, j: nat)
    requires i != j
    ensures name + Decimal(i) != name + Decimal(j)
  {
    ParsePrinted(i);
    ParsePrinted(j);
    assert (name + Decimal(i))[|name|..] == Decimal(i);
    assert (name + Decimal(j))[|name|..] == Decimal(j);
  }

  lemma QuotientIsUnique(x: nat, q: nat, m: nat, r: nat)
    requires r < m && x == q * m + r
    ensures x / m == q && x % m == r
  {
    var d := x / m - q;
    assert x == x / m * m + x % m;
    assert d * m == r - x % m;
    MultipleIsFar(d, m);
  }

  lemma MultipleIsFar(d: int, m: nat)
    ensures d >= 1 ==> d * m >= m
    ensures d <= -1 ==> d * m <= 0 - m
  {
  }

  lemma StepDivMod(n: nat, m: nat)
    requires m > 0
    ensures (n + 1) % m == if n % m + 1 == m then 0 else n % m + 1
    ensures (n + 1) / m == n / m + if n % m + 1 == m then 1 else 0
  {
    var q, r := n / m, n % m;
    assert n == q * m + r;
    if r + 1 == m {
      assert n + 1 == (q + 1) * m;
      QuotientIsUnique(n + 1, q + 1, m, 0);
    } else {
      QuotientIsUnique(n + 1, q, m, r + 1);
    }
  }

  /** How many of the `len` calls from call `first` on were given `loop`. */
  function Served(subLoops: nat, loop: nat, first: nat, len: nat): nat {
    if len == 0 then 0
    else Served(subLoops, loop, first, len - 1) + if LoopOfCall(subLoops, first + len - 1) == loop then 1 else 0
  }

  /** Closed form: the calls given `loop` since the very first one. */
  lemma {:induction false} ServedSinceStart(subLoops: nat, loop: nat, len: nat)
    requires 1 <= loop <= subLoops
    ensures Served(subLoops, loop, 0, len) == len / subLoops + if loop <= len % subLoops then 1 else 0
  {
    if len > 0 {
      ServedSinceStart(subLoops, loop, len - 1);
      StepDivMod(len - 1, subLoops);
    }
  }

  lemma {:induction false} ServedSplits(subLoops: nat, loop: nat, first: nat, len: nat)
    ensures Served(subLoops, loop, 0, first + len) ==
      Served(subLoops, loop, 0, first) + Served(subLoops, loop, first, len)
  {
    if len > 0 {
      ServedSplits(subLoops, loop, first, len - 1);
    }
  }

  /** Fairness: over any window of consecutive calls, any two sub-loops differ by at most one. */
  lemma RoundRobinIsFair(subLoops: nat, i: nat, j: nat, first: nat, len: nat)
    requires 1 <= i <= subLoops && 1 <= j <= subLoops
    ensures Served(subLoops, i, first, len) <= Served(subLoops, j, first, len) + 1
  {
    ServedSplits(subLoops, i, first, len);
    ServedSplits(subLoops, j, first, len);
    ServedSinceStart(subLoops, i, first);
    ServedSinceStart(subLoops, j, first);
    ServedSinceStart(subLoops, i, first + len);
    ServedSinceStart(subLoops, j, first + len);
  }
}
