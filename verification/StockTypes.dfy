/** The entities of the stock estate: locations, moves and their lines, quants, and the
    valuation books (bins over an append-only ledger). */
module StockTypes {
  import opened Common

  type Id = nat
  type Item = nat
  type Loc = nat
  type Wh = nat
  type Acct = nat

  datatype Usage = Internal | Supplier | Customer | View | InventoryLoss | Production | Transit

  datatype Location = Location(usage: Usage, warehouse: Option<Wh>, valuationAccount: Option<Acct>)

  datatype MoveState = Draft | Waiting | Confirmed | PartiallyAvailable | Assigned | Done | Cancelled

  predicate Live(st: MoveState) { st != Done && st != Cancelled }

  /** The states an assign or a done may have produced and a further done may start from. */
  predicate Ready(st: MoveState) { st == Confirmed || st == PartiallyAvailable || st == Assigned }

  /** Move names, as far as the engine reads them: a voucher line's forward leg, its reversal
      leg, a backorder of a named move, or any other text. */
  datatype Name =
    | Forward(voucher: Id, line: nat)
    | Reversal(voucher: Id, line: nat)
    | BackorderOf(name: Name)
    | Named(tag: Id)

  datatype Move = Move(
    name: Name, item: Item, demand: real, quantity: real, price: real,
    src: Loc, dst: Loc, orig: seq<Id>, dest: seq<Id>,
    isInventory: bool, forced: Option<real>, propagate: bool, state: MoveState)

  /** The grain of a quant: one row per item, location, lot, package and owner. */
  datatype Dims = Dims(item: Item, loc: Loc, lot: Option<Id>, pkg: Option<Id>, owner: Option<Id>)

  datatype Line = Line(mv: Id, src: Dims, dstLoc: Loc, resultPkg: Option<Id>, qty: real, state: MoveState)

  datatype Quant = Quant(quantity: real, reserved: real)

  datatype BinKey = BinKey(item: Item, wh: Wh)

  datatype Bin = Bin(qty: real, rate: real, value: real)

  /** What a ledger row was minted for: a done move, or one landed cost on one move line. */
  datatype Voucher = StockEntry(mv: Id) | LandedCost(lc: Id, line: Id)

  /** One stock ledger entry; `after` holds its quantity, rate and value after the entry. */
  datatype Row = Row(voucher: Voucher, key: BinKey, actual: real, incoming: real, after: Bin, diff: real)

  datatype Books = Books(bins: map<BinKey, Bin>, rows: seq<Row>)

  datatype Error =
    | NegativeQuantity
    | SameLocation
    | LocationNotFound
    | ViewLocationHoldsNoStock
    | NotFound
    | WrongMoveState
    | TransitionNotDeclared
    | MoveLinesRequired
    | InsufficientStock
    | InsufficientStockToReverse
    | NotDraft
    | NotSubmitted
    | GlNotPosted
    | GlRejected
    | LandedCostZeroSplitBasis
    | LandedCostAllocationMismatch
    | LandedCostNoValuationAccount
    | LandedCostNoValuedTargets
    | LandedCostNoLines
    | LandedCostLineNeedsAccount
    | LandedCostRequiresCostMethod
    | LandedCostNotDraft
    | StoreRefused
    | CountReserved
    | OutdatedCount

  datatype Outcome<+T> = Ok(value: T) | Err(error: Error)
}
