/**
  The toroidal tape memories of `src/turing_machine_memory.rs`: fixed-extent grids of
  one, two and three dimensions, each with a head vector that only ever moves by one
  cell along one axis and wraps around at the edges.

  Every variant is described through one uniform view: `Extents()` lists the extent of
  each head coordinate (1D `[width]`, 2D `[height, width]`, 3D `[depth, height, width]`,
  the order in which the Rust code indexes its nested arrays), `Head()` is the head vector
  and `ValueAt(p)` the cell at coordinate vector `p`.  The movement of every variant is
  specified by the single function `Moved`.
*/
module TuringMachineMemory {
  import opened Primitives

  /** Every extent is a positive number (the Rust const generics, all > 0). */
  predicate Positive(extents: seq<int>) {
    forall i :: 0 <= i < |extents| ==> extents[i] > 0
  }

  /** `p` is a coordinate vector inside a grid with the given extents. */
  predicate InBounds(p: seq<int>, extents: seq<int>) {
    |p| == |extents| && forall i :: 0 <= i < |p| ==> 0 <= p[i] < extents[i]
  }

  /** The origin of a grid with `dims` axes. */
  function Origin(dims: nat): (r: seq<int>)
    ensures |r| == dims && forall i :: 0 <= i < dims ==> r[i] == 0
  {
    seq(dims, _ => 0)
  }

  /**
    Reference definition of a head move: code `2a` steps axis `a` one cell down and
    code `2a + 1` one cell up, both modulo that axis' extent; a code naming no axis
    leaves the head where it is.
  */
  function Moved(head: seq<int>, extents: seq<int>, movement: U8): (r: seq<int>)
    requires |head| == |extents| && Positive(extents)
    ensures |r| == |head|
    ensures forall i :: 0 <= i < |r| && i != movement / 2 ==> r[i] == head[i]
    ensures movement >= 2 * |head| ==> r == head
    ensures InBounds(head, extents) ==> InBounds(r, extents)
  {
    var axis := movement / 2;
    if axis < |head| then
      var n := extents[axis];
      head[axis := if movement % 2 == 0 then (head[axis] + n - 1) % n else (head[axis] + 1) % n]
    else
      head
  }

  /** At the low edge a decrement wraps to the top; at the top edge an increment wraps to 0. */
  lemma {:induction false} MovedWrapsAround(head: seq<int>, extents: seq<int>, axis: nat)
    requires InBounds(head, extents) && Positive(extents) && axis < |head| && 2 * axis + 1 < 256
    ensures head[axis] == 0 ==> Moved(head, extents, 2 * axis)[axis] == extents[axis] - 1
    ensures head[axis] == extents[axis] - 1 ==> Moved(head, extents, 2 * axis + 1)[axis] == 0
  {
    var n := extents[axis];
    ModOfSmall(head[axis] + n - 1, n);
    ModOfSmall(head[axis] + 1, n);
  }

  /** Decrement and increment along the same axis undo each other, in either order. */
  lemma {:induction false} MovedUndo(head: seq<int>, extents: seq<int>, axis: nat)
    requires InBounds(head, extents) && Positive(extents) && axis < |head| && 2 * axis + 1 < 256
    ensures Moved(Moved(head, extents, 2 * axis + 1), extents, 2 * axis) == head
    ensures Moved(Moved(head, extents, 2 * axis), extents, 2 * axis + 1) == head
  {
    var n, h := extents[axis], head[axis];
    ModOfSmall(h + 1, n);
    var up := (h + 1) % n;
    ModOfSmall(up + n - 1, n);
    ModOfSmall(h + n - 1, n);
    var down := (h + n - 1) % n;
    ModOfSmall(down + 1, n);
    assert Moved(Moved(head, extents, 2 * axis + 1), extents, 2 * axis) == head;
  }

  /** A one-dimensional tape of `width` cells (`Memory1D<WIDTH>`). */
  class Memory1D {
    const width: nat
    const memory: array<U8>
    var tapehead: seq<int>

    /** The extents and the array agree (the const part of the invariant). */
    ghost predicate Shaped() {
      width > 0 && memory.Length == width
    }

    ghost predicate Valid()
      reads this
    {
      Shaped() && InBounds(tapehead, Extents())
    }

    function Extents(): seq<int> { [width] }

    /** `Memory1D::new`: every cell holds `fill`, the head is at the origin. */
    constructor (width: nat, fill: U8)
      requires width > 0
      ensures Valid() && fresh(memory) && this.width == width
      ensures tapehead == Origin(1)
      ensures forall i :: 0 <= i < width ==> memory[i] == fill
    {
      this.width := width;
      memory := new U8[width](_ => fill);
      tapehead := [0];
    }

    function ValueAt(p: seq<int>): U8
      reads memory
      requires Shaped() && InBounds(p, Extents())
    {
      memory[p[0]]
    }

    function ReadMemory(): (r: U8)
      reads this, memory
      requires Valid()
      ensures r == ValueAt(tapehead)
    {
      memory[tapehead[0]]
    }

    method WriteMemory(symbol: U8)
      requires Valid()
      modifies memory
      ensures Valid() && tapehead == old(tapehead)
      ensures ReadMemory() == symbol
      ensures forall p :: InBounds(p, Extents()) ==>
        ValueAt(p) == if p == tapehead then symbol else old(ValueAt(p))
    {
      memory[tapehead[0]] := symbol;
      forall p | InBounds(p, Extents())
        ensures ValueAt(p) == if p == tapehead then symbol else old(ValueAt(p))
      {
        assert p == tapehead <==> p[0] == tapehead[0];
      }
    }

    method MoveHead(movement: U8)
      requires Valid()
      modifies this
      ensures Valid()
      ensures tapehead == Moved(old(tapehead), Extents(), movement)
    {
      match movement {
        case 0 => tapehead := tapehead[0 := (tapehead[0] + width - 1) % width];
        case 1 => tapehead := tapehead[0 := (tapehead[0] + 1) % width];
        case _ =>
      }
    }

    function GetMovementsByName(): (r: seq<string>)
      ensures |r| == 2 * |Extents()| + 1 && r[|r| - 1] == "stay"
    {
      ["left", "right", "stay"]
    }
  }

  /** A `height` x `width` torus (`Memory2D<WIDTH, HEIGHT>`), indexed row first. */
  class Memory2D {
    const width: nat
    const height: nat
    const memory: array2<U8>
    var tapehead: seq<int>

    /** The extents and the array agree (the const part of the invariant). */
    ghost predicate Shaped() {
      width > 0 && height > 0 && memory.Length0 == height && memory.Length1 == width
    }

    ghost predicate Valid()
      reads this
    {
      Shaped() && InBounds(tapehead, Extents())
    }

    function Extents(): seq<int> { [height, width] }

    /** `Memory2D::new`: every cell holds `fill`, the head is at the origin. */
    constructor (width: nat, height: nat, fill: U8)
      requires width > 0 && height > 0
      ensures Valid() && fresh(memory) && this.width == width && this.height == height
      ensures tapehead == Origin(2)
      ensures forall r, c :: 0 <= r < height && 0 <= c < width ==> memory[r, c] == fill
    {
      this.width, this.height := width, height;
      memory := new U8[height, width]((_, _) => fill);
      tapehead := [0, 0];
    }

    function ValueAt(p: seq<int>): U8
      reads memory
      requires Shaped() && InBounds(p, Extents())
    {
      memory[p[0], p[1]]
    }

    function ReadMemory(): (r: U8)
      reads this, memory
      requires Valid()
      ensures r == ValueAt(tapehead)
    {
      memory[tapehead[0], tapehead[1]]
    }

    method WriteMemory(symbol: U8)
      requires Valid()
      modifies memory
      ensures Valid() && tapehead == old(tapehead)
      ensures ReadMemory() == symbol
      ensures forall p :: InBounds(p, Extents()) ==>
        ValueAt(p) == if p == tapehead then symbol else old(ValueAt(p))
    {
      memory[tapehead[0], tapehead[1]] := symbol;
      forall p | InBounds(p, Extents())
        ensures ValueAt(p) == if p == tapehead then symbol else old(ValueAt(p))
      {
        assert p == tapehead <==> p[0] == tapehead[0] && p[1] == tapehead[1];
      }
    }

    method MoveHead(movement: U8)
      requires Valid()
      modifies this
      ensures Valid()
      ensures tapehead == Moved(old(tapehead), Extents(), movement)
    {
      match movement {
        case 0 => tapehead := tapehead[0 := (tapehead[0] + height - 1) % height];
        case 1 => tapehead := tapehead[0 := (tapehead[0] + 1) % height];
        case 2 => tapehead := tapehead[1 := (tapehead[1] + width - 1) % width];
        case 3 => tapehead := tapehead[1 := (tapehead[1] + 1) % width];
        case _ =>
      }
    }

    function GetMovementsByName(): (r: seq<string>)
      ensures |r| == 2 * |Extents()| + 1 && r[|r| - 1] == "stay"
    {
      ["up", "down", "left", "right", "stay"]
    }
  }

  /**
    A `depth` x `height` x `width` torus (`Memory3D<WIDTH, HEIGHT, DEPTH>`), indexed
    slice first.
  */
  class Memory3D {
    const width: nat
    const height: nat
    const depth: nat
    const memory: array3<U8>
    var tapehead: seq<int>

    /** The extents and the array agree (the const part of the invariant). */
    ghost predicate Shaped() {
      width > 0 && height > 0 && depth > 0 &&
      memory.Length0 == depth && memory.Length1 == height && memory.Length2 == width
    }

    ghost predicate Valid()
      reads this
    {
      Shaped() && InBounds(tapehead, Extents())
    }

    function Extents(): seq<int> { [depth, height, width] }

    /** `Memory3D::new`: every cell holds `fill`, the head is at the origin. */
    constructor (width: nat, height: nat, depth: nat, fill: U8)
      requires width > 0 && height > 0 && depth > 0
      ensures Valid() && fresh(memory)
      ensures this.width == width && this.height == height && this.depth == depth
      ensures tapehead == Origin(3)
      ensures forall d, r, c :: 0 <= d < depth && 0 <= r < height && 0 <= c < width ==>
        memory[d, r, c] == fill
    {
      this.width, this.height, this.depth := width, height, depth;
      memory := new U8[depth, height, width]((_, _, _) => fill);
      tapehead := [0, 0, 0];
    }

    function ValueAt(p: seq<int>): U8
      reads memory
      requires Shaped() && InBounds(p, Extents())
    {
      memory[p[0], p[1], p[2]]
    }

    function ReadMemory(): (r: U8)
      reads this, memory
      requires Valid()
      ensures r == ValueAt(tapehead)
    {
      memory[tapehead[0], tapehead[1], tapehead[2]]
    }

    method WriteMemory(symbol: U8)
      requires Valid()
      modifies memory
      ensures Valid() && tapehead == old(tapehead)
      ensures ReadMemory() == symbol
      ensures forall p :: InBounds(p, Extents()) ==>
        ValueAt(p) == if p == tapehead then symbol else old(ValueAt(p))
    {
      memory[tapehead[0], tapehead[1], tapehead[2]] := symbol;
      forall p | InBounds(p, Extents())
        ensures ValueAt(p) == if p == tapehead then symbol else old(ValueAt(p))
      {
        assert p == tapehead <==> p[0] == tapehead[0] && p[1] == tapehead[1] && p[2] == tapehead[2];
      }
    }

    method MoveHead(movement: U8)
      requires Valid()
      modifies this
      ensures Valid()
      ensures tapehead == Moved(old(tapehead), Extents(), movement)
    {
      match movement {
        case 0 => tapehead := tapehead[0 := (tapehead[0] + depth - 1) % depth];
        case 1 => tapehead := tapehead[0 := (tapehead[0] + 1) % depth];
        case 2 => tapehead := tapehead[1 := (tapehead[1] + height - 1) % height];
        case 3 => tapehead := tapehead[1 := (tapehead[1] + 1) % height];
        case 4 => tapehead := tapehead[2 := (tapehead[2] + width - 1) % width];
        case 5 => tapehead := tapehead[2 := (tapehead[2] + 1) % width];
        case _ =>
      }
    }

    function GetMovementsByName(): (r: seq<string>)
      ensures |r| == 2 * |Extents()| + 1 && r[|r| - 1] == "stay"
    {
      ["back", "forward", "up", "down", "left", "right", "stay"]
    }
  }
}

module MemoryInterface {
  import opened Primitives
  import opened TuringMachineMemory

  /** The extents a memory variant is instantiated with (the Rust const generics). */
  datatype Shape =
    | Line(width: nat)
    | Grid(width: nat, height: nat)
    | Block(width: nat, height: nat, depth: nat)
  {
    /** Every const generic is positive. */
    predicate Valid() {
      Positive(Extents())
    }

    /** The extent of each head coordinate, in the order the variant indexes its cells. */
    function Extents(): seq<int> {
      match this
      case Line(w) => [w]
      case Grid(w, h) => [h, w]
      case Block(w, h, d) => [d, h, w]
    }
  }

  /**
    The Rust `Memory` trait: one of the three variants, with the operations
    dispatched to it.  `TM<M: Memory>` is written once against this type.
  */
  datatype Memory = Mem1D(m1: Memory1D) | Mem2D(m2: Memory2D) | Mem3D(m3: Memory3D)
  {
    ghost function Repr(): set<object> {
      match this
      case Mem1D(m) => {m, m.memory}
      case Mem2D(m) => {m, m.memory}
      case Mem3D(m) => {m, m.memory}
    }

    function Extents(): seq<int> {
      match this
      case Mem1D(m) => m.Extents()
      case Mem2D(m) => m.Extents()
      case Mem3D(m) => m.Extents()
    }

    ghost predicate Shaped() {
      match this
      case Mem1D(m) => m.Shaped()
      case Mem2D(m) => m.Shaped()
      case Mem3D(m) => m.Shaped()
    }

    ghost predicate Valid()
      reads Repr()
    {
      match this
      case Mem1D(m) => m.Valid()
      case Mem2D(m) => m.Valid()
      case Mem3D(m) => m.Valid()
    }

    function Head(): seq<int>
      reads Repr()
    {
      match this
      case Mem1D(m) => m.tapehead
      case Mem2D(m) => m.tapehead
      case Mem3D(m) => m.tapehead
    }

    function ValueAt(p: seq<int>): U8
      reads Repr()
      requires Shaped() && InBounds(p, Extents())
    {
      match this
      case Mem1D(m) => m.ValueAt(p)
      case Mem2D(m) => m.ValueAt(p)
      case Mem3D(m) => m.ValueAt(p)
    }

    /** Every cell holds a value below `bound`. */
    ghost predicate CellsBelow(bound: int)
      reads Repr()
      requires Shaped()
    {
      forall p :: InBounds(p, Extents()) ==> ValueAt(p) < bound
    }

    /** `read_memory`: the cell under the head. */
    function ReadMemory(): (r: U8)
      reads Repr()
      requires Valid()
      ensures Shaped() && r == ValueAt(Head())
    {
      match this
      case Mem1D(m) => m.ReadMemory()
      case Mem2D(m) => m.ReadMemory()
      case Mem3D(m) => m.ReadMemory()
    }

    /** `write_memory`: only the cell under the head changes; the head stays. */
    method WriteMemory(symbol: U8)
      requires Valid()
      modifies Repr()
      ensures Valid() && Head() == old(Head())
      ensures ReadMemory() == symbol
      ensures forall p :: InBounds(p, Extents()) ==>
        ValueAt(p) == if p == Head() then symbol else old(ValueAt(p))
    {
      match this
      case Mem1D(m) => m.WriteMemory(symbol);
      case Mem2D(m) => m.WriteMemory(symbol);
      case Mem3D(m) => m.WriteMemory(symbol);
    }

    /** `move_head`: the head moves as `Moved` says; no cell changes. */
    method MoveHead(movement: U8)
      requires Valid()
      modifies Repr()
      ensures Valid()
      ensures Head() == Moved(old(Head()), Extents(), movement)
      ensures forall p :: InBounds(p, Extents()) ==> ValueAt(p) == old(ValueAt(p))
    {
      match this
      case Mem1D(m) => m.MoveHead(movement);
      case Mem2D(m) => m.MoveHead(movement);
      case Mem3D(m) => m.MoveHead(movement);
    }

    function GetMovementsByName(): (r: seq<string>)
      ensures |r| == 2 * |Extents()| + 1 && r[|r| - 1] == "stay"
    {
      match this
      case Mem1D(m) => m.GetMovementsByName()
      case Mem2D(m) => m.GetMovementsByName()
      case Mem3D(m) => m.GetMovementsByName()
    }
  }

  /** `M::new(fill)` for the variant that `shape` selects. */
  method NewMemory(shape: Shape, fill: U8) returns (mem: Memory)
    requires shape.Valid()
    ensures mem.Valid() && fresh(mem.Repr())
    ensures mem.Extents() == shape.Extents()
    ensures mem.Head() == Origin(|shape.Extents()|)
    ensures forall p :: InBounds(p, mem.Extents()) ==> mem.ValueAt(p) == fill
  {
    match shape
    case Line(w) =>
      assert shape.Extents()[0] > 0;
      var m := new Memory1D(w, fill);
      mem := Mem1D(m);
    case Grid(w, h) =>
      assert shape.Extents()[0] > 0 && shape.Extents()[1] > 0;
      var m := new Memory2D(w, h, fill);
      mem := Mem2D(m);
    case Block(w, h, d) =>
      assert shape.Extents()[0] > 0 && shape.Extents()[1] > 0 && shape.Extents()[2] > 0;
      var m := new Memory3D(w, h, d, fill);
      mem := Mem3D(m);
  }
}
