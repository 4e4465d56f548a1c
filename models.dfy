/**
 * The domain records of the exchange backend: users, stocks, holdings,
 * transactions and portfolios, with the defaults their constructors give
 * (app/domain/models.py). Money is an exact `real`; share counts are `int`.
 */
module Models {

  datatype Option<+T> = None | Some(value: T)

  /** A user's role; the source restricts it to the literals "admin" and "user". */
  datatype Role = AdminRole | UserRole

  /** The literal a role is stored as. */
  function RoleName(r: Role): (s: string)
    ensures s == "admin" || s == "user"
    ensures (s == "user") <==> (r == UserRole)
  {
    match r
    case AdminRole => "admin"
    case UserRole => "user"
  }

  /** A registered user. A user built without a role is a plain "user". */
  datatype User = User(
    id: string,
    name: string,
    email: string,
    username: string,
    passwordHash: string,
    role: Role := UserRole)

  /** A tradable instrument with its current price and percentage change. */
  datatype Stock = Stock(ticker: string, company: string, price: real, change: real)

  /** A position in one instrument within a portfolio. */
  datatype Holding = Holding(
    ticker: string,
    company: string,
    shares: int,
    avgPrice: real,
    currentPrice: real,
    purchaseDate: string)

  /** The two kinds of trade; the source stores them as "compra" (buy) and "venta" (sell). */
  datatype TxType = Buy | Sell

  /** The literal a transaction type is stored as: exactly one of "compra" and "venta". */
  function TypeName(t: TxType): (s: string)
    ensures s == "compra" || s == "venta"
    ensures (s == "compra") <==> (t == Buy)
  {
    match t
    case Buy => "compra"
    case Sell => "venta"
  }

  /** An executed trade, as written once to the journal. */
  datatype Transaction = Transaction(
    id: string,
    userId: string,
    txType: TxType,
    ticker: string,
    company: string,
    shares: int,
    price: real,
    total: real,
    date: string,
    bank: string)

  /** A user's cash balance and holdings; by default 1000.0 and no holdings. */
  datatype Portfolio = Portfolio(userId: string, balance: real := 1000.0, holdings: seq<Holding> := [])

  /** The portfolio a user is given when none exists yet: built from the record's defaults. */
  function NewPortfolio(userId: string): (p: Portfolio)
    ensures p.userId == userId && p.balance == 1000.0 && p.holdings == []
    ensures WellFormed(p)
  {
    Portfolio(userId)
  }

  /** No two holdings share a ticker. */
  ghost predicate UniqueTickers(hs: seq<Holding>) {
    forall i, j :: 0 <= i < j < |hs| ==> hs[i].ticker != hs[j].ticker
  }

  /** Every holding has a positive share count and non-negative prices. */
  ghost predicate PositiveHoldings(hs: seq<Holding>) {
    forall i :: 0 <= i < |hs| ==> hs[i].shares > 0 && hs[i].avgPrice >= 0.0 && hs[i].currentPrice >= 0.0
  }

  /** The ledger's portfolio invariant: non-negative cash, positive positions, unique tickers. */
  ghost predicate WellFormed(p: Portfolio) {
    p.balance >= 0.0 && PositiveHoldings(p.holdings) && UniqueTickers(p.holdings)
  }

  /** Every held ticker is a key of the stock table. */
  ghost predicate HeldListed(p: Portfolio, stocks: map<string, Stock>) {
    forall i :: 0 <= i < |p.holdings| ==> p.holdings[i].ticker in stocks
  }
}
