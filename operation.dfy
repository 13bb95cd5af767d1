/** Paddle-move intents and the keyboard table (src/game_and_scene/operation.rs). */
module Operations {
  import opened Paddles
  import opened Wrappers

  /** What to do with a paddle. */
  datatype OperationTypes = Up | Down | Stay

  /** A move for the paddle at position `index` among the paddles of `side`. */
  datatype Operation = Operation(opType: OperationTypes, side: Sides, index: nat)

  /** `Operation::new`. */
  function New(opType: OperationTypes, side: Sides, index: nat): (op: Operation)
    ensures op.opType == opType && op.side == side && op.index == index
  {
    Operation(opType, side, index)
  }

  /** The keys of the keyboard the table looks at; `Other` stands for every remaining key. */
  datatype Keycode = W | S | A | D | Up | Down | Left | Right | Other(code: int)

  /**
    `from_key_code`: W/S and A/D drive the two left paddles, the up/down and left/right
    arrows the two right paddles; any other key is no operation.
   */
  function FromKeyCode(k: Keycode): (r: Option<Operation>)
    ensures r.None? <==> k.Other?
    ensures r.Some? ==> r.value.opType != Stay && r.value.index < 2
  {
    match k
    case W => Some(New(OperationTypes.Up, Sides.Left, 0))
    case S => Some(New(OperationTypes.Down, Sides.Left, 0))
    case A => Some(New(OperationTypes.Up, Sides.Left, 1))
    case D => Some(New(OperationTypes.Down, Sides.Left, 1))
    case Up => Some(New(OperationTypes.Up, Sides.Right, 0))
    case Down => Some(New(OperationTypes.Down, Sides.Right, 0))
    case Left => Some(New(OperationTypes.Up, Sides.Right, 1))
    case Right => Some(New(OperationTypes.Down, Sides.Right, 1))
    case Other(_) => None
  }

  /** The table, entry by entry. */
  lemma KeyTable()
    ensures FromKeyCode(W) == Some(Operation(OperationTypes.Up, Sides.Left, 0))
    ensures FromKeyCode(S) == Some(Operation(OperationTypes.Down, Sides.Left, 0))
    ensures FromKeyCode(A) == Some(Operation(OperationTypes.Up, Sides.Left, 1))
    ensures FromKeyCode(D) == Some(Operation(OperationTypes.Down, Sides.Left, 1))
    ensures FromKeyCode(Keycode.Up) == Some(Operation(OperationTypes.Up, Sides.Right, 0))
    ensures FromKeyCode(Keycode.Down) == Some(Operation(OperationTypes.Down, Sides.Right, 0))
    ensures FromKeyCode(Keycode.Left) == Some(Operation(OperationTypes.Up, Sides.Right, 1))
    ensures FromKeyCode(Keycode.Right) == Some(Operation(OperationTypes.Down, Sides.Right, 1))
  {
  }

  /** The key that produces a given operation, if any: the table read backwards. */
  function KeyFor(op: Operation): (k: Option<Keycode>)
    ensures k.Some? ==> !k.value.Other?
  {
    if op.opType == Stay || op.index >= 2 then None
    else if op.side == Sides.Left then
      if op.index == 0 then Some(if op.opType == OperationTypes.Up then W else S)
      else Some(if op.opType == OperationTypes.Up then A else D)
    else
      if op.index == 0 then Some(if op.opType == OperationTypes.Up then Keycode.Up else Keycode.Down)
      else Some(if op.opType == OperationTypes.Up then Keycode.Left else Keycode.Right)
  }

  /** The table is a bijection between the eight keys and the eight moves of paddles 0 and 1. */
  lemma KeyRoundTrip(k: Keycode, op: Operation)
    ensures FromKeyCode(k) == Some(op) <==> KeyFor(op) == Some(k)
  {
  }

  /** Every up or down move of a paddle 0 or 1 is produced by some key. */
  lemma EveryMoveHasAKey(op: Operation)
    requires op.opType != Stay && op.index < 2
    ensures exists k :: FromKeyCode(k) == Some(op)
  {
    var k := KeyFor(op).value;
    KeyRoundTrip(k, op);
  }

  /**
    The caller's `Vec<Operation>`, which a frame update empties by popping: the last
    operation pushed comes out first.
   */
  class PendingOps {
    var items: seq<Operation>

    constructor (items: seq<Operation>)
      ensures this.items == items
    {
      this.items := items;
    }

    /** `Vec::pop`. */
    method Pop() returns (op: Option<Operation>)
      modifies this
      ensures old(items) == [] ==> op == None && items == []
      ensures old(items) != [] ==>
        op == Some(old(items)[|old(items)| - 1]) && items == old(items)[..|old(items)| - 1]
    {
      if items == [] {
        op := None;
      } else {
        op := Some(items[|items| - 1]);
        items := items[..|items| - 1];
      }
    }
  }
}
