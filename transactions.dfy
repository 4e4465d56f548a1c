/**
 * The buy/sell engine (app/api/transactions.py). The trade rules on one
 * portfolio are the functions `BuyOn` and `SellOn`; the handlers `BuyStock`
 * and `SellStock` run those rules step by step against the store and are
 * proved to leave the store exactly as the rules say.
 */
module Transactions {
  import opened Models
  import opened Database

  /** Why a trade was refused; each carries what the source reports to the caller. */
  datatype TradeError =
    | StockNotFound(ticker: string)
    | InsufficientFunds(available: real, required: real)
    | NoHolding(ticker: string)
    | InsufficientShares(held: int)

  datatype Result<+T> = Ok(value: T) | Err(error: TradeError)

  predicate IsLowerAscii(c: char) {
    'a' <= c <= 'z'
  }

  /** Upper-casing of a ticker as typed by the caller, for the ASCII letters. */
  function Upper(s: string): (r: string)
    ensures |r| == |s|
    ensures forall i :: 0 <= i < |r| ==> !IsLowerAscii(r[i])
    ensures forall i :: 0 <= i < |s| && IsLowerAscii(s[i]) ==> r[i] as int == s[i] as int - 32
    ensures forall i :: 0 <= i < |s| && !IsLowerAscii(s[i]) ==> r[i] == s[i]
  {
    seq(|s|, i requires 0 <= i < |s| => if IsLowerAscii(s[i]) then (s[i] as int - 32) as char else s[i])
  }

  /** Upper-casing twice is upper-casing once. */
  lemma UpperIdempotent(s: string)
    ensures Upper(Upper(s)) == Upper(s)
  {
  }

  /** `i` is the position of the first holding with the given ticker. */
  ghost predicate FirstHeld(hs: seq<Holding>, ticker: string, i: int) {
    0 <= i < |hs| && hs[i].ticker == ticker && forall j :: 0 <= j < i ==> hs[j].ticker != ticker
  }

  /** The position of the first holding with the given ticker, if any. */
  function TickerIndex(hs: seq<Holding>, ticker: string): (r: Option<nat>)
    ensures r.Some? ==> r.value < |hs| && hs[r.value].ticker == ticker
    ensures r.Some? ==> forall j :: 0 <= j < r.value ==> hs[j].ticker != ticker
    ensures r.None? <==> forall j :: 0 <= j < |hs| ==> hs[j].ticker != ticker
  {
    if hs == [] then None
    else if hs[0].ticker == ticker then Some(0)
    else match TickerIndex(hs[1..], ticker)
      case None => None
      case Some(k) => Some(k + 1)
  }

  /** The handlers' scan for the first holding with the given ticker; -1 when there is none. */
  method FindHolding(hs: seq<Holding>, ticker: string) returns (idx: int)
    ensures -1 <= idx < |hs|
    ensures idx >= 0 ==> hs[idx].ticker == ticker && forall j :: 0 <= j < idx ==> hs[j].ticker != ticker
    ensures idx == -1 ==> forall j :: 0 <= j < |hs| ==> hs[j].ticker != ticker
  {
    idx := -1;
    for i := 0 to |hs|
      invariant idx == -1
      invariant forall j :: 0 <= j < i ==> hs[j].ticker != ticker
    {
      if hs[i].ticker == ticker {
        idx := i;
        break;
      }
    }
  }

  /**
   * A further purchase of `n` shares at `price` merged into an existing
   * holding: the share counts add up and the average price is re-weighted so
   * that the cost of the holding is the old cost plus the cost of the new lot.
   */
  function Blend(h: Holding, n: int, price: real): (r: Holding)
    requires h.shares > 0 && n > 0
    ensures r.shares == h.shares + n
    ensures r.currentPrice == price
    ensures r.ticker == h.ticker && r.company == h.company && r.purchaseDate == h.purchaseDate
  {
    var newTotalShares := h.shares + n;
    var newAvgPrice := ((h.shares as real) * h.avgPrice + (n as real) * price) / (newTotalShares as real);
    h.(shares := newTotalShares, avgPrice := newAvgPrice, currentPrice := price)
  }

  /**
   * The re-weighted average keeps the cost basis: the new average times the
   * new share count is the old cost plus the cost of the new lot, and the new
   * average lies between the old average and the purchase price.
   */
  lemma BlendKeepsCost(h: Holding, n: int, price: real)
    requires h.shares > 0 && n > 0
    ensures var r := Blend(h, n, price);
      && r.avgPrice * (r.shares as real) == h.avgPrice * (h.shares as real) + price * (n as real)
      && ((h.avgPrice <= r.avgPrice <= price) || (price <= r.avgPrice <= h.avgPrice))
  {
    var a, b := h.shares as real, n as real;
    assert (h.shares + n) as real == a + b;
    BlendBetween(a, h.avgPrice, b, price, Blend(h, n, price).avgPrice);
  }

  /** A weighted mean of two prices with positive weights lies between them. */
  lemma BlendBetween(a: real, x: real, b: real, y: real, m: real)
    requires a > 0.0 && b > 0.0 && m == (a * x + b * y) / (a + b)
    ensures m * (a + b) == a * x + b * y
    ensures (x <= m <= y) || (y <= m <= x)
  {
    QuotientTimesDivisor(a * x + b * y, a + b, m);
    MeanBetween(a, x, b, y, m, a + b);
  }

  lemma QuotientTimesDivisor(q: real, d: real, m: real)
    requires d > 0.0 && m == q / d
    ensures m * d == q
  {
  }

  lemma MeanBetween(a: real, x: real, b: real, y: real, m: real, d: real)
    requires a > 0.0 && b > 0.0 && d == a + b && m * d == a * x + b * y
    ensures (x <= m <= y) || (y <= m <= x)
  {
    ScaledGaps(a, x, b, y, m, d);
    if x <= y {
      ProductNonNegative(b, y - x);
      ProductNonNegative(a, y - x);
      NonNegativeFactor(m - x, d, b * (y - x));
      NonNegativeFactor(y - m, d, a * (y - x));
    } else {
      ProductNonNegative(b, x - y);
      ProductNonNegative(a, x - y);
      NonNegativeFactor(x - m, d, b * (x - y));
      NonNegativeFactor(m - y, d, a * (x - y));
    }
  }

  /** The distances from a weighted mean to both prices, scaled by the total weight. */
  lemma ScaledGaps(a: real, x: real, b: real, y: real, m: real, d: real)
    requires d == a + b && m * d == a * x + b * y
    ensures (m - x) * d == b * (y - x) && (x - m) * d == b * (x - y)
    ensures (y - m) * d == a * (y - x) && (m - y) * d == a * (x - y)
  {
    assert (m - x) * d == m * d - x * d;
    assert (y - m) * d == y * d - m * d;
  }

  lemma ProductNonNegative(u: real, v: real)
    requires u >= 0.0 && v >= 0.0
    ensures u * v >= 0.0
  {
  }

  /** A product with a positive factor has the sign of its other factor. */
  lemma NonNegativeFactor(u: real, c: real, prod: real)
    requires c > 0.0 && u * c == prod && prod >= 0.0
    ensures u >= 0.0
  {
  }

  /**
   * The buy rule on one portfolio: charge `price*n` if the balance covers it,
   * then merge the shares into the holding of that ticker or append a new one.
   */
  function BuyOn(p: Portfolio, s: Stock, n: int, today: string): (r: Result<Portfolio>)
    requires WellFormed(p) && n > 0
    ensures r.Ok? <==> s.price * (n as real) <= p.balance
    ensures r.Err? ==> r.error == InsufficientFunds(p.balance, s.price * (n as real))
    ensures r.Ok? ==> r.value.userId == p.userId && r.value.balance == p.balance - s.price * (n as real)
    ensures r.Ok? ==> r.value.balance >= 0.0
  {
    var total := s.price * (n as real);
    if total > p.balance then Err(InsufficientFunds(p.balance, total))
    else
      var hs := match TickerIndex(p.holdings, s.ticker)
        case Some(i) => p.holdings[i := Blend(p.holdings[i], n, s.price)]
        case None => p.holdings + [Holding(s.ticker, s.company, n, s.price, s.price, today)];
      Ok(p.(balance := p.balance - total, holdings := hs))
  }

  /** Buying a held ticker changes only that holding, by `Blend`, and adds none. */
  lemma BuyHeld(p: Portfolio, s: Stock, n: int, today: string, i: nat)
    requires WellFormed(p) && n > 0 && s.price * (n as real) <= p.balance
    requires i < |p.holdings| && p.holdings[i].ticker == s.ticker
    ensures var hs := BuyOn(p, s, n, today).value.holdings;
      && |hs| == |p.holdings|
      && hs[i] == Blend(p.holdings[i], n, s.price)
      && forall j :: 0 <= j < |hs| && j != i ==> hs[j] == p.holdings[j]
  {
    assert TickerIndex(p.holdings, s.ticker) == Some(i);
  }

  /** Buying an unheld ticker appends one holding priced at the stock price and keeps the others. */
  lemma BuyUnheld(p: Portfolio, s: Stock, n: int, today: string)
    requires WellFormed(p) && n > 0 && s.price * (n as real) <= p.balance
    requires forall j :: 0 <= j < |p.holdings| ==> p.holdings[j].ticker != s.ticker
    ensures BuyOn(p, s, n, today).value.holdings == p.holdings + [Holding(s.ticker, s.company, n, s.price, s.price, today)]
  {
  }

  /** A successful buy keeps the portfolio invariant: cash, positive positions, unique tickers. */
  lemma BuyPreservesWellFormed(p: Portfolio, s: Stock, n: int, today: string)
    requires WellFormed(p) && n > 0 && s.price >= 0.0
    requires BuyOn(p, s, n, today).Ok?
    ensures WellFormed(BuyOn(p, s, n, today).value)
  {
    var q := BuyOn(p, s, n, today).value;
    match TickerIndex(p.holdings, s.ticker)
    case Some(i) =>
      BuyHeld(p, s, n, today, i);
      BlendKeepsCost(p.holdings[i], n, s.price);
      assert forall j :: 0 <= j < |q.holdings| ==> q.holdings[j].ticker == p.holdings[j].ticker;
    case None =>
      BuyUnheld(p, s, n, today);
  }

  /** A successful buy of a listed ticker keeps every held ticker listed. */
  lemma BuyPreservesListed(p: Portfolio, s: Stock, n: int, today: string, stocks: map<string, Stock>)
    requires WellFormed(p) && n > 0 && HeldListed(p, stocks) && s.ticker in stocks
    requires BuyOn(p, s, n, today).Ok?
    ensures HeldListed(BuyOn(p, s, n, today).value, stocks)
  {
    var q := BuyOn(p, s, n, today).value;
    match TickerIndex(p.holdings, s.ticker)
    case Some(i) =>
      BuyHeld(p, s, n, today, i);
      assert forall j :: 0 <= j < |q.holdings| ==> q.holdings[j].ticker == p.holdings[j].ticker;
    case None => BuyUnheld(p, s, n, today);
  }

  /** 50 shares at 140.5 plus 10 more at 160.0 make 60 shares at 143.75. */
  lemma BlendExample()
    ensures var h := Blend(Holding("LAFISE", "LAFISE Nicaragua", 50, 140.5, 148.2, "2024-01-10"), 10, 160.0);
      h.shares == 60 && h.avgPrice == 143.75 && h.currentPrice == 160.0 && h.purchaseDate == "2024-01-10"
  {
  }

  /** From a default portfolio, 5 shares at 100.0 leave 500.0 in cash and one holding of 5 at 100.0. */
  lemma FirstBuyExample(userId: string, today: string)
    ensures BuyOn(NewPortfolio(userId), Stock("AGRI", "Agrícola Nicaragua", 100.0, 0.0), 5, today)
      == Ok(Portfolio(userId, 500.0, [Holding("AGRI", "Agrícola Nicaragua", 5, 100.0, 100.0, today)]))
  {
    var p := NewPortfolio(userId);
    assert TickerIndex(p.holdings, "AGRI") == None;
    assert [] + [Holding("AGRI", "Agrícola Nicaragua", 5, 100.0, 100.0, today)] == [Holding("AGRI", "Agrícola Nicaragua", 5, 100.0, 100.0, today)];
  }

  /**
   * The sell rule on one portfolio: the ticker must be held in at least the
   * requested count; the proceeds are credited, and the holding is removed
   * when it is sold out or else reduced, its prices untouched.
   */
  function SellOn(p: Portfolio, s: Stock, n: int): (r: Result<Portfolio>)
    requires n > 0
    ensures r.Err? && r.error.NoHolding? <==> forall j :: 0 <= j < |p.holdings| ==> p.holdings[j].ticker != s.ticker
    ensures r.Err? ==> r.error == NoHolding(s.ticker) || r.error.InsufficientShares?
    ensures r.Err? && r.error.InsufficientShares? ==>
      exists i :: FirstHeld(p.holdings, s.ticker, i) && n > p.holdings[i].shares && r.error.held == p.holdings[i].shares
    ensures (exists i :: FirstHeld(p.holdings, s.ticker, i) && n > p.holdings[i].shares) ==>
      r.Err? && r.error.InsufficientShares?
    ensures r.Ok? ==> r.value.userId == p.userId && r.value.balance == p.balance + s.price * (n as real)
  {
    match TickerIndex(p.holdings, s.ticker)
    case None => Err(NoHolding(s.ticker))
    case Some(i) =>
      var h := p.holdings[i];
      if n > h.shares then Err(InsufficientShares(h.shares))
      else
        var total := s.price * (n as real);
        var hs := if n == h.shares then p.holdings[..i] + p.holdings[i + 1..]
                  else p.holdings[i := h.(shares := h.shares - n)];
        Ok(p.(balance := p.balance + total, holdings := hs))
  }

  /** Selling a whole holding removes exactly it; the others keep their order. */
  lemma SellAll(p: Portfolio, s: Stock, n: int, i: nat)
    requires UniqueTickers(p.holdings)
    requires i < |p.holdings| && p.holdings[i].ticker == s.ticker && n == p.holdings[i].shares && n > 0
    ensures SellOn(p, s, n).Ok?
    ensures SellOn(p, s, n).value.holdings == p.holdings[..i] + p.holdings[i + 1..]
    ensures forall j :: 0 <= j < |SellOn(p, s, n).value.holdings| ==> SellOn(p, s, n).value.holdings[j].ticker != s.ticker
  {
    assert TickerIndex(p.holdings, s.ticker) == Some(i);
  }

  /** Selling part of a holding lowers only its share count; cost basis and prices are kept. */
  lemma SellPart(p: Portfolio, s: Stock, n: int, i: nat)
    requires UniqueTickers(p.holdings)
    requires i < |p.holdings| && p.holdings[i].ticker == s.ticker && 0 < n < p.holdings[i].shares
    ensures SellOn(p, s, n).Ok?
    ensures var hs := SellOn(p, s, n).value.holdings;
      && |hs| == |p.holdings|
      && hs[i] == p.holdings[i].(shares := p.holdings[i].shares - n)
      && hs[i].avgPrice == p.holdings[i].avgPrice && hs[i].currentPrice == p.holdings[i].currentPrice
      && forall j :: 0 <= j < |hs| && j != i ==> hs[j] == p.holdings[j]
  {
    assert TickerIndex(p.holdings, s.ticker) == Some(i);
  }

  /** A successful sell keeps the portfolio invariant (given a non-negative price). */
  lemma SellPreservesWellFormed(p: Portfolio, s: Stock, n: int)
    requires WellFormed(p) && n > 0 && s.price >= 0.0
    requires SellOn(p, s, n).Ok?
    ensures WellFormed(SellOn(p, s, n).value)
  {
    var i := TickerIndex(p.holdings, s.ticker).value;
    var q := SellOn(p, s, n).value;
    if n == p.holdings[i].shares {
      SellAll(p, s, n, i);
      RemovePreserves(p.holdings, i);
    } else {
      SellPart(p, s, n, i);
      assert forall j :: 0 <= j < |q.holdings| ==> q.holdings[j].ticker == p.holdings[j].ticker;
    }
  }

  /** A sell keeps every held ticker listed. */
  lemma SellPreservesListed(p: Portfolio, s: Stock, n: int, stocks: map<string, Stock>)
    requires WellFormed(p) && n > 0 && HeldListed(p, stocks)
    requires SellOn(p, s, n).Ok?
    ensures HeldListed(SellOn(p, s, n).value, stocks)
  {
    var i := TickerIndex(p.holdings, s.ticker).value;
    if n == p.holdings[i].shares {
      SellAll(p, s, n, i);
      RemovePreserves(p.holdings, i);
    } else {
      SellPart(p, s, n, i);
    }
  }

  /** Removing one holding keeps the rest positive and unique. */
  lemma RemovePreserves(hs: seq<Holding>, i: nat)
    requires i < |hs|
    ensures var rest := hs[..i] + hs[i + 1..];
      && |rest| == |hs| - 1
      && (forall j :: 0 <= j < |rest| ==> rest[j] == hs[if j < i then j else j + 1])
      && (PositiveHoldings(hs) ==> PositiveHoldings(rest))
      && (UniqueTickers(hs) ==> UniqueTickers(rest))
  {
    var rest := hs[..i] + hs[i + 1..];
    assert forall j :: 0 <= j < |rest| ==> rest[j] == hs[if j < i then j else j + 1];
  }

  /** Selling all 35 seeded BANCEN shares at 96.8 credits 3388.0 and leaves only LAFISE. */
  lemma SellOutExample(userId: string)
    ensures SellOn(SeedPortfolio(userId), Stock("BANCEN", "Banco Central", 96.8, -3.5), 35)
      == Ok(Portfolio(userId, 4388.0, [Holding("LAFISE", "LAFISE Nicaragua", 50, 140.5, 148.2, "2024-01-10")]))
  {
    var p := SeedPortfolio(userId);
    assert TickerIndex(p.holdings, "BANCEN") == Some(1);
    assert p.holdings[..1] + p.holdings[2..] == [p.holdings[0]];
  }

  /** A trade request as the handlers receive it, with its stock already looked up. */
  datatype Order = BuyOrder(stock: Stock, shares: int, today: string) | SellOrder(stock: Stock, shares: int)

  /** Every order asks for a positive count of a non-negatively priced stock. */
  ghost predicate SaneOrders(orders: seq<Order>) {
    forall k :: 0 <= k < |orders| ==> orders[k].shares > 0 && orders[k].stock.price >= 0.0
  }

  /**
   * One portfolio after a run of trades handled one at a time, each refused
   * trade leaving it as it was: every state reached is well formed, so no
   * sequence of trades overdraws the balance or leaves an empty holding.
   */
  function Replay(p: Portfolio, orders: seq<Order>): (r: Portfolio)
    requires WellFormed(p) && SaneOrders(orders)
    ensures WellFormed(r) && r.userId == p.userId
    decreases |orders|
  {
    if orders == [] then p
    else
      var next := match orders[0]
        case BuyOrder(s, n, today) =>
          var o := BuyOn(p, s, n, today);
          if o.Ok? then BuyPreservesWellFormed(p, s, n, today); o.value else p
        case SellOrder(s, n) =>
          var o := SellOn(p, s, n);
          if o.Ok? then SellPreservesWellFormed(p, s, n); o.value else p;
      Replay(next, orders[1..])
  }

  /**
   * The buy steps on the user's portfolio: check the balance, debit the cost,
   * then merge into the held position or append a new one.
   */
  method BuyOnPortfolio(portfolio: Portfolio, s: Stock, shares: int, today: string) returns (r: Result<Portfolio>)
    requires WellFormed(portfolio) && shares > 0 && s.price >= 0.0
    ensures r == BuyOn(portfolio, s, shares, today)
    ensures r.Ok? ==> WellFormed(r.value)
  {
    var total := s.price * (shares as real);
    if total > portfolio.balance {
      return Err(InsufficientFunds(portfolio.balance, total));
    }
    var balance := portfolio.balance;
    balance := balance - total;
    var holdings := portfolio.holdings;
    var idx := FindHolding(holdings, s.ticker);
    if idx >= 0 {
      var h := holdings[idx];
      var newTotalShares := h.shares + shares;
      var newAvgPrice := ((h.shares as real) * h.avgPrice + (shares as real) * s.price) / (newTotalShares as real);
      holdings := holdings[idx := h.(shares := newTotalShares, avgPrice := newAvgPrice, currentPrice := s.price)];
      BuyHeld(portfolio, s, shares, today, idx);
      assert holdings[idx] == Blend(h, shares, s.price);
    } else {
      holdings := holdings + [Holding(s.ticker, s.company, shares, s.price, s.price, today)];
      BuyUnheld(portfolio, s, shares, today);
    }
    var expected := BuyOn(portfolio, s, shares, today).value;
    assert holdings == expected.holdings;
    var updated := portfolio.(balance := balance, holdings := holdings);
    assert updated.balance == expected.balance && updated.userId == expected.userId;
    BuyPreservesWellFormed(portfolio, s, shares, today);
    r := Ok(updated);
  }

  /**
   * The sell steps on the user's portfolio: find the first holding of the
   * ticker, check its share count, credit the proceeds, then remove the
   * holding or reduce its shares.
   */
  method SellOnPortfolio(portfolio: Portfolio, s: Stock, shares: int) returns (r: Result<Portfolio>)
    requires WellFormed(portfolio) && shares > 0 && s.price >= 0.0
    ensures r == SellOn(portfolio, s, shares)
    ensures r.Ok? ==> WellFormed(r.value)
  {
    var idx := FindHolding(portfolio.holdings, s.ticker);
    if idx < 0 {
      return Err(NoHolding(s.ticker));
    }
    var holding := portfolio.holdings[idx];
    assert TickerIndex(portfolio.holdings, s.ticker) == Some(idx);
    if shares > holding.shares {
      return Err(InsufficientShares(holding.shares));
    }
    var balance := portfolio.balance;
    balance := balance + s.price * (shares as real);
    var holdings := portfolio.holdings;
    if shares == holding.shares {
      holdings := holdings[..idx] + holdings[idx + 1..];
      SellAll(portfolio, s, shares, idx);
    } else {
      holdings := holdings[idx := holding.(shares := holding.shares - shares)];
      SellPart(portfolio, s, shares, idx);
    }
    var updated := portfolio.(balance := balance, holdings := holdings);
    var expected := SellOn(portfolio, s, shares).value;
    assert updated.balance == expected.balance && updated.holdings == expected.holdings && updated.userId == expected.userId;
    SellPreservesWellFormed(portfolio, s, shares);
    r := Ok(updated);
  }

  /** The journal record of a trade of `n` shares of `s` at its listed price. */
  function Receipt(id: string, userId: string, kind: TxType, s: Stock, n: int, date: string, bank: string): (t: Transaction)
    ensures t.ticker == s.ticker && t.company == s.company && t.price == s.price
    ensures t.shares == n && t.total == s.price * (n as real) && t.txType == kind && t.userId == userId
  {
    Transaction(id, userId, kind, s.ticker, s.company, n, s.price, s.price * (n as real), date, bank)
  }

  /**
   * The buy handler: look the upper-cased ticker up, provision the
   * portfolio, run the buy steps, store the portfolio and prepend a
   * "compra" record to the journal. `txId`, `today` and `now` stand for the
   * generated id and the clock.
   */
  method BuyStock(db: InMemoryDatabase, userId: string, ticker: string, shares: int, bank: string,
                  txId: string, today: string, now: string) returns (r: Result<Transaction>)
    requires db.Valid() && shares > 0
    modifies db
    ensures db.Valid()
    ensures db.users == old(db.users) && db.userOrder == old(db.userOrder) && db.stocks == old(db.stocks)
    ensures Upper(ticker) !in old(db.stocks) ==>
      r == Err(StockNotFound(ticker)) && db.portfolios == old(db.portfolios) && db.transactions == old(db.transactions)
    ensures Upper(ticker) in old(db.stocks) ==>
      var s := old(db.stocks)[Upper(ticker)];
      var p := Provisioned(old(db.portfolios), userId);
      var outcome := BuyOn(p, s, shares, today);
      && (outcome.Err? ==>
            r == Err(outcome.error) && db.portfolios == old(db.portfolios)[userId := p] && db.transactions == old(db.transactions))
      && (outcome.Ok? ==>
            && r == Ok(Receipt(txId, userId, Buy, s, shares, now, bank))
            && db.portfolios == old(db.portfolios)[userId := outcome.value]
            && db.transactions == [r.value] + old(db.transactions))
  {
    var stock := db.GetStock(Upper(ticker));
    if stock.None? {
      return Err(StockNotFound(ticker));
    }
    var s := stock.value;
    var portfolio := GetOrCreatePortfolio(db, userId);
    assert s == old(db.stocks)[Upper(ticker)] && portfolio == Provisioned(old(db.portfolios), userId);
    var outcome := BuyOnPortfolio(portfolio, s, shares, today);
    if outcome.Err? {
      return Err(outcome.error);
    }
    BuyPreservesListed(portfolio, s, shares, today, db.stocks);
    db.UpdatePortfolio(outcome.value);
    var tx := Receipt(txId, userId, Buy, s, shares, now, bank);
    db.AddTransaction(tx);
    r := Ok(tx);
  }

  /**
   * The sell handler: look the upper-cased ticker up, provision the
   * portfolio, run the sell steps, store the portfolio and prepend a
   * "venta" record to the journal.
   */
  method SellStock(db: InMemoryDatabase, userId: string, ticker: string, shares: int, bank: string,
                   txId: string, now: string) returns (r: Result<Transaction>)
    requires db.Valid() && shares > 0
    modifies db
    ensures db.Valid()
    ensures db.users == old(db.users) && db.userOrder == old(db.userOrder) && db.stocks == old(db.stocks)
    ensures Upper(ticker) !in old(db.stocks) ==>
      r == Err(StockNotFound(ticker)) && db.portfolios == old(db.portfolios) && db.transactions == old(db.transactions)
    ensures Upper(ticker) in old(db.stocks) ==>
      var s := old(db.stocks)[Upper(ticker)];
      var p := Provisioned(old(db.portfolios), userId);
      var outcome := SellOn(p, s, shares);
      && (outcome.Err? ==>
            r == Err(outcome.error) && db.portfolios == old(db.portfolios)[userId := p] && db.transactions == old(db.transactions))
      && (outcome.Ok? ==>
            && r == Ok(Receipt(txId, userId, Sell, s, shares, now, bank))
            && db.portfolios == old(db.portfolios)[userId := outcome.value]
            && db.transactions == [r.value] + old(db.transactions))
  {
    var stock := db.GetStock(Upper(ticker));
    if stock.None? {
      return Err(StockNotFound(ticker));
    }
    var s := stock.value;
    var portfolio := GetOrCreatePortfolio(db, userId);
    assert s == old(db.stocks)[Upper(ticker)] && portfolio == Provisioned(old(db.portfolios), userId);
    var outcome := SellOnPortfolio(portfolio, s, shares);
    if outcome.Err? {
      return Err(outcome.error);
    }
    SellPreservesListed(portfolio, s, shares, db.stocks);
    db.UpdatePortfolio(outcome.value);
    var tx := Receipt(txId, userId, Sell, s, shares, now, bank);
    db.AddTransaction(tx);
    r := Ok(tx);
  }
}
