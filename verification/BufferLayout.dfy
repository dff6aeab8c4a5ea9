/** How the storage of include/Buffer.h evolves: its size and its two indices, whatever the bytes are. */
module BufferLayouts {

  const CHEAP_PREPEND: nat := 8

  datatype Layout = Layout(size: nat, reader: nat, writer: nat)

  /** The cheap prepend area stays free, and an empty buffer starts right behind it. */
  predicate Ok(b: Layout) {
    && CHEAP_PREPEND <= b.reader <= b.writer <= b.size
    && (b.reader == b.writer ==> b.reader == CHEAP_PREPEND)
  }

  function Readable(b: Layout): int {
    b.writer - b.reader
  }

  function Writable(b: Layout): int {
    b.size - b.writer
  }

  function Created(initial: nat): Layout {
    Layout(CHEAP_PREPEND + initial, CHEAP_PREPEND, CHEAP_PREPEND)
  }

  function Retrieved(b: Layout, n: nat): Layout {
    if n < Readable(b) then b.(reader := b.reader + n)
    else b.(reader := CHEAP_PREPEND, writer := CHEAP_PREPEND)
  }

  /** makeSpace: grow if even with what was read the room is too short, else move the bytes down. */
  function WithSpace(b: Layout, n: nat): Layout
    requires b.reader <= b.writer
  {
    if Writable(b) + b.reader < n + CHEAP_PREPEND then b.(size := b.writer + n)
    else b.(reader := CHEAP_PREPEND, writer := CHEAP_PREPEND + Readable(b))
  }

  function Appended(b: Layout, n: nat): Layout
    requires b.reader <= b.writer
  {
    var b1 := if Writable(b) < n then WithSpace(b, n) else b;
    b1.(writer := b1.writer + n)
  }

  /** readFd of `n` bytes: what does not fit behind the writer index is appended from the stack buffer. */
  function Filled(b: Layout, n: nat): Layout
    requires b.reader <= b.writer <= b.size
  {
    if n <= Writable(b) then b.(writer := b.writer + n)
    else Appended(b.(writer := b.size), n - Writable(b))
  }

  datatype Op = Append(n: nat) | Retrieve(n: nat) | ReadFd(n: nat)

  function Step(b: Layout, op: Op): Layout
    requires Ok(b)
  {
    match op
    case Append(n) => Appended(b, n)
    case Retrieve(n) => Retrieved(b, n)
    case ReadFd(n) => Filled(b, n)
  }

  /** Every operation keeps the layout in order and changes the readable length like a queue. */
  lemma StepOk(b: Layout, op: Op)
    requires Ok(b)
    ensures Ok(Step(b, op))
    ensures Readable(Step(b, op)) == match op
      case Append(n) => Readable(b) + n
      case Retrieve(n) => if n < Readable(b) then Readable(b) - n else 0
      case ReadFd(n) => Readable(b) + n
  {
  }

  /** The storage grows exactly when the readable bytes, the new ones and the prepend area do not fit. */
  lemma GrowsWhenFull(b: Layout, n: nat)
    requires Ok(b)
    ensures Appended(b, n).size > b.size <==> b.size < CHEAP_PREPEND + Readable(b) + n
    ensures Filled(b, n).size > b.size <==> b.size < b.writer + n && b.size < CHEAP_PREPEND + Readable(b) + n
  {
  }

  /** Room is made exactly when the tail is too short: by growing just enough, or by moving the bytes down
      to the prepend area of 8; otherwise only the writer index moves. */
  lemma MakesRoomAsNeeded(b: Layout, n: nat)
    requires Ok(b)
    ensures var b' := Appended(b, n);
            && (b'.size > b.size ==> b'.size == b.writer + n && b'.reader == b.reader)
            && (b'.reader != b.reader <==> b.size - b.writer < n && b'.size == b.size)
            && (b'.reader != b.reader ==> b'.reader == 8)
            && b'.size >= b.size && b'.writer - b'.reader == b.writer - b.reader + n
  {
  }

  function Run(b: Layout, ops: seq<Op>): Layout
    requires Ok(b)
    decreases |ops|
  {
    if ops == [] then b
    else
      StepOk(b, ops[0]);
      Run(Step(b, ops[0]), ops[1..])
  }

  function Max(a: int, b: int): int {
    if a < b then b else a
  }

  /** The most bytes readable at any time in a run. */
  function Peak(b: Layout, ops: seq<Op>): int
    requires Ok(b)
    decreases |ops|
  {
    if ops == [] then Readable(b)
    else
      StepOk(b, ops[0]);
      Max(Readable(b), Peak(Step(b, ops[0]), ops[1..]))
  }

  lemma StepSize(b: Layout, op: Op)
    requires Ok(b)
    ensures Step(b, op).size <= Max(b.size, CHEAP_PREPEND + 2 * Readable(Step(b, op)))
    ensures b.size <= Step(b, op).size
  {
  }

  lemma {:induction false} RunSize(b: Layout, ops: seq<Op>)
    requires Ok(b)
    ensures Run(b, ops).size <= Max(b.size, CHEAP_PREPEND + 2 * Peak(b, ops))
    ensures Peak(b, ops) >= Readable(b)
    decreases |ops|
  {
    if ops != [] {
      StepOk(b, ops[0]);
      StepSize(b, ops[0]);
      RunSize(Step(b, ops[0]), ops[1..]);
    }
  }

  /** In every run the storage stays within the initial size or twice the most bytes ever readable,
      besides the prepend area. */
  lemma SpaceIsBounded(initial: nat, ops: seq<Op>)
    ensures Run(Created(initial), ops).size <=
      Max(CHEAP_PREPEND + initial, CHEAP_PREPEND + 2 * Peak(Created(initial), ops))
  {
    RunSize(Created(initial), ops);
  }
}
