/**
 The double that two threads share: two 32-bit halves guarded by a sequence
 counter.  Every function here is one atomic operation of a store or of a load.

 The counter of a cell is kept as the number of increments it ever received;
 the machine sees only its remainder modulo 2^32.
 */
module AtomicDouble {
  import opened Words

  datatype Cell = Cell(count: nat, low: Word, high: Word) {
    function Sequence(): Word {
      count % TWO_32
    }

    function Value(): Double {
      Join(low, high)
    }

    predicate Settled() {
      count % 2 == 0
    }
  }

  /** A freshly initialised cell. */
  function NewCell(d: Double): Cell {
    Cell(0, Low(d), High(d))
  }

  // ---------------------------------------------------------------- stores

  /** The next operation of a store; Stored means it has returned. */
  datatype StorePhase = Raise | PutLow | PutHigh | Lower | Stored

  function StoreStep(cell: Cell, d: Double, phase: StorePhase): Cell {
    match phase
    case Raise => cell.(count := cell.count + 1)
    case PutLow => cell.(low := Low(d))
    case PutHigh => cell.(high := High(d))
    case Lower => cell.(count := cell.count + 1)
    case Stored => cell
  }

  function AfterStore(phase: StorePhase): StorePhase {
    match phase
    case Raise => PutLow
    case PutLow => PutHigh
    case PutHigh => Lower
    case Lower => Stored
    case Stored => Stored
  }

  /** What a store that reached `phase` has done to a cell which held `was` before. */
  ghost predicate Storing(cell: Cell, was: Double, d: Double, phase: StorePhase) {
    match phase
    case Raise => cell.Settled() && cell.Value() == was
    case PutLow => !cell.Settled()
    case PutHigh => !cell.Settled() && cell.low == Low(d)
    case Lower => !cell.Settled() && cell.low == Low(d) && cell.high == High(d)
    case Stored => cell.Settled() && cell.Value() == d
  }

  lemma StoreAdvances(cell: Cell, was: Double, d: Double, phase: StorePhase)
    requires Storing(cell, was, d, phase)
    ensures Storing(StoreStep(cell, d, phase), was, d, AfterStore(phase))
    ensures cell.count <= StoreStep(cell, d, phase).count
    ensures StoreStep(cell, d, phase).count == cell.count && cell.Settled() ==> StoreStep(cell, d, phase) == cell
  {
    JoinOfSplit(d);
  }

  // ----------------------------------------------------------------- loads

  const ATTEMPTS := 3

  /** The next operation of one load attempt, with what it has read so far. */
  datatype LoadPhase =
    | Before
    | ReadLow(before: nat)
    | ReadHigh(before: nat, low: Word)
    | After(before: nat, low: Word, high: Word)

  datatype Load = Load(attempt: nat, phase: LoadPhase)

  datatype LoadResult = Going(load: Load) | Loaded(value: Double) | GaveUp

  const FIRST_ATTEMPT := Load(0, Before)

  function Retry(attempt: nat): LoadResult {
    if attempt + 1 < ATTEMPTS then Going(Load(attempt + 1, Before)) else GaveUp
  }

  function LoadStep(cell: Cell, load: Load): LoadResult {
    match load.phase
    case Before =>
      if cell.Sequence() % 2 != 0 then Retry(load.attempt)
      else Going(Load(load.attempt, ReadLow(cell.count)))
    case ReadLow(before) => Going(Load(load.attempt, ReadHigh(before, cell.low)))
    case ReadHigh(before, low) => Going(Load(load.attempt, After(before, low, cell.high)))
    case After(before, low, high) =>
      if before % TWO_32 != cell.Sequence() || cell.Sequence() % 2 != 0 then Retry(load.attempt)
      else Loaded(Join(low, high))
  }

  /** What an attempt in flight knows about the cell: as long as no store began, what it read is current. */
  ghost predicate Loading(cell: Cell, load: Load) {
    && load.attempt < ATTEMPTS
    && match load.phase
       case Before => true
       case ReadLow(before) => before <= cell.count && before % 2 == 0
       case ReadHigh(before, low) =>
         before <= cell.count && before % 2 == 0 && (before == cell.count ==> low == cell.low)
       case After(before, low, high) =>
         before <= cell.count && before % 2 == 0 && (before == cell.count ==> low == cell.low && high == cell.high)
  }

  /** Fewer than 2^31 stores happen while one attempt is in flight, so its counter cannot wrap onto itself. */
  ghost predicate NoWrap(cell: Cell, load: Load) {
    load.phase.After? ==> cell.count < load.phase.before + TWO_32
  }

  /** An operation of the reader keeps what the attempt knows; a successful one returns the cell's value at that
      moment. */
  lemma LoadAdvances(cell: Cell, load: Load)
    requires Loading(cell, load) && NoWrap(cell, load)
    ensures match LoadStep(cell, load)
            case Going(next) => Loading(cell, next)
            case Loaded(d) => cell.Settled() && d == cell.Value()
            case GaveUp => true
  {
    ParityOfWord(cell.count);
    if load.phase.After? && load.phase.before % TWO_32 == cell.Sequence() {
      SameCount(load.phase.before, cell.count);
    }
  }

  /** An attempt fails only when a store was inside the cell during that attempt. */
  lemma FailureMeansOverlap(cell: Cell, load: Load)
    requires Loading(cell, load)
    requires LoadStep(cell, load) == Retry(load.attempt)
    ensures !cell.Settled() || (load.phase.After? && load.phase.before < cell.count)
  {
    ParityOfWord(cell.count);
  }
}
