/**
 * The portfolio views (app/api/portfolio.py): the valuation summary, the
 * holdings list and the cash balance. Each view provisions a missing
 * portfolio first; the summary and the holdings list also refresh every
 * holding's current price from the stock table, and that refresh stays in
 * the stored portfolio.
 */
module PortfolioApi {
  import opened Models
  import opened Database

  /** The valuation a user sees: four aggregate figures, the cash balance and the holdings. */
  datatype PortfolioSummary = PortfolioSummary(
    totalValue: real,
    totalInvested: real,
    totalGainLoss: real,
    totalGainLossPercent: real,
    balance: real,
    holdings: seq<Holding>)

  /** A holding with its current price taken from the stock table, when its ticker is listed there. */
  function RefreshOne(h: Holding, stocks: map<string, Stock>): Holding {
    if h.ticker in stocks then h.(currentPrice := stocks[h.ticker].price) else h
  }

  /** Every holding refreshed; only current prices change, and only for listed tickers. */
  function Refresh(hs: seq<Holding>, stocks: map<string, Stock>): (r: seq<Holding>)
    ensures |r| == |hs|
    ensures forall i :: 0 <= i < |hs| ==>
      && r[i].ticker == hs[i].ticker && r[i].company == hs[i].company && r[i].shares == hs[i].shares
      && r[i].avgPrice == hs[i].avgPrice && r[i].purchaseDate == hs[i].purchaseDate
    ensures forall i :: 0 <= i < |hs| && hs[i].ticker in stocks ==> r[i].currentPrice == stocks[hs[i].ticker].price
    ensures forall i :: 0 <= i < |hs| && hs[i].ticker !in stocks ==> r[i] == hs[i]
  {
    seq(|hs|, i requires 0 <= i < |hs| => RefreshOne(hs[i], stocks))
  }

  function Cost(h: Holding): real {
    (h.shares as real) * h.avgPrice
  }

  function Worth(h: Holding): real {
    (h.shares as real) * h.currentPrice
  }

  /** The sum of `shares * avgPrice`, accumulated front to back. */
  function Invested(hs: seq<Holding>): real {
    if hs == [] then 0.0 else Invested(hs[..|hs| - 1]) + Cost(hs[|hs| - 1])
  }

  /** The sum of `shares * currentPrice`, accumulated front to back. */
  function MarketValue(hs: seq<Holding>): real {
    if hs == [] then 0.0 else MarketValue(hs[..|hs| - 1]) + Worth(hs[|hs| - 1])
  }

  /** The gain as a percentage of the amount invested; 0 when nothing is invested, so never a division by zero. */
  function GainLossPercent(gain: real, invested: real): (r: real)
    ensures invested > 0.0 ==> r * invested == gain * 100.0
    ensures invested <= 0.0 ==> r == 0.0
    ensures invested > 0.0 && gain >= 0.0 ==> r >= 0.0
    ensures invested > 0.0 && gain < 0.0 ==> r < 0.0
  {
    if invested > 0.0 then gain / invested * 100.0 else 0.0
  }

  /** The summary of already refreshed holdings with the given cash balance. */
  function SummaryOf(balance: real, hs: seq<Holding>): PortfolioSummary {
    var invested := Invested(hs);
    var value := MarketValue(hs);
    PortfolioSummary(value, invested, value - invested, GainLossPercent(value - invested, invested), balance, hs)
  }

  /** The summary loop: refresh each holding and accumulate what it cost and what it is worth. */
  method Summarize(hs: seq<Holding>, stocks: map<string, Stock>) returns (refreshed: seq<Holding>, totalInvested: real, totalValue: real)
    ensures refreshed == Refresh(hs, stocks)
    ensures totalInvested == Invested(refreshed) && totalValue == MarketValue(refreshed)
  {
    refreshed, totalInvested, totalValue := [], 0.0, 0.0;
    for i := 0 to |hs|
      invariant |refreshed| == i
      invariant forall j :: 0 <= j < i ==> refreshed[j] == RefreshOne(hs[j], stocks)
      invariant totalInvested == Invested(refreshed) && totalValue == MarketValue(refreshed)
    {
      var h := RefreshOne(hs[i], stocks);
      totalInvested := totalInvested + Cost(h);
      totalValue := totalValue + Worth(h);
      assert (refreshed + [h])[..i] == refreshed;
      refreshed := refreshed + [h];
    }
  }

  /** The holdings loop: refresh each holding's current price. */
  method RefreshPrices(hs: seq<Holding>, stocks: map<string, Stock>) returns (refreshed: seq<Holding>)
    ensures refreshed == Refresh(hs, stocks)
  {
    refreshed := [];
    for i := 0 to |hs|
      invariant |refreshed| == i
      invariant forall j :: 0 <= j < i ==> refreshed[j] == RefreshOne(hs[j], stocks)
    {
      refreshed := refreshed + [RefreshOne(hs[i], stocks)];
    }
  }

  /** Refreshing again with the same table changes nothing. */
  lemma RefreshIdempotent(hs: seq<Holding>, stocks: map<string, Stock>)
    ensures Refresh(Refresh(hs, stocks), stocks) == Refresh(hs, stocks)
  {
  }

  /** Refreshing with non-negative listed prices keeps the portfolio invariant and the listed tickers. */
  lemma RefreshPreserves(p: Portfolio, stocks: map<string, Stock>)
    requires forall k :: k in stocks ==> stocks[k].price >= 0.0
    ensures var q := p.(holdings := Refresh(p.holdings, stocks));
      && (WellFormed(p) ==> WellFormed(q))
      && (HeldListed(p, stocks) ==> HeldListed(q, stocks))
  {
  }

  /** The amount invested depends only on share counts and average prices. */
  lemma {:induction false} InvestedIgnoresPrices(hs: seq<Holding>, gs: seq<Holding>)
    requires |hs| == |gs|
    requires forall i :: 0 <= i < |hs| ==> hs[i].shares == gs[i].shares && hs[i].avgPrice == gs[i].avgPrice
    ensures Invested(hs) == Invested(gs)
  {
    if hs != [] {
      InvestedIgnoresPrices(hs[..|hs| - 1], gs[..|gs| - 1]);
    }
  }

  /** The amount invested in well-formed holdings is never negative. */
  lemma {:induction false} InvestedNonNegative(hs: seq<Holding>)
    requires PositiveHoldings(hs)
    ensures Invested(hs) >= 0.0 && MarketValue(hs) >= 0.0
  {
    if hs != [] {
      InvestedNonNegative(hs[..|hs| - 1]);
    }
  }

  /** The total gain is the sum over holdings of `shares * (currentPrice - avgPrice)`. */
  function HoldingGains(hs: seq<Holding>): real {
    if hs == [] then 0.0 else HoldingGains(hs[1..]) + (hs[0].shares as real) * (hs[0].currentPrice - hs[0].avgPrice)
  }

  lemma {:induction false} GainIsSumOfHoldingGains(hs: seq<Holding>)
    ensures MarketValue(hs) - Invested(hs) == HoldingGains(hs)
  {
    if hs != [] {
      GainSplit(hs);
      GainIsSumOfHoldingGains(hs[1..]);
    }
  }

  /** Both sums split off their first element. */
  lemma {:induction false} GainSplit(hs: seq<Holding>)
    requires hs != []
    ensures Invested(hs) == Cost(hs[0]) + Invested(hs[1..])
    ensures MarketValue(hs) == Worth(hs[0]) + MarketValue(hs[1..])
  {
    if |hs| == 1 {
      assert hs[..0] == [] && hs[1..] == [];
    } else {
      var front := hs[..|hs| - 1];
      GainSplit(front);
      assert front[0] == hs[0] && front[1..] == hs[1..][..|hs[1..]| - 1];
      assert hs[1..][|hs[1..]| - 1] == hs[|hs| - 1];
    }
  }

  /** A second summary with no trade and no price change in between reports the same figures. */
  lemma SummaryStable(p: Portfolio, stocks: map<string, Stock>)
    ensures var once := Refresh(p.holdings, stocks);
      SummaryOf(p.balance, Refresh(once, stocks)) == SummaryOf(p.balance, once)
  {
    RefreshIdempotent(p.holdings, stocks);
  }

  /**
   * GET /portfolio: provision, refresh every holding's price (the refreshed
   * holdings stay stored), and report the aggregates with the balance.
   */
  method GetPortfolio(db: InMemoryDatabase, userId: string) returns (summary: PortfolioSummary)
    requires db.Valid()
    modifies db
    ensures db.Valid()
    ensures var p := Provisioned(old(db.portfolios), userId);
      var hs := Refresh(p.holdings, old(db.stocks));
      && db.portfolios == old(db.portfolios)[userId := p.(holdings := hs)]
      && summary == SummaryOf(p.balance, hs)
    ensures summary.totalInvested == Invested(summary.holdings) && summary.totalValue == MarketValue(summary.holdings)
    ensures summary.totalGainLoss == summary.totalValue - summary.totalInvested
    ensures summary.totalInvested == Invested(Provisioned(old(db.portfolios), userId).holdings)
    ensures summary.balance == Provisioned(old(db.portfolios), userId).balance
    ensures db.users == old(db.users) && db.userOrder == old(db.userOrder)
    ensures db.stocks == old(db.stocks) && db.transactions == old(db.transactions)
  {
    var portfolio := GetOrCreatePortfolio(db, userId);
    var refreshed, totalInvested, totalValue := Summarize(portfolio.holdings, db.stocks);
    var totalGainLoss := totalValue - totalInvested;
    var totalGainLossPercent := GainLossPercent(totalGainLoss, totalInvested);
    RefreshPreserves(portfolio, db.stocks);
    InvestedIgnoresPrices(refreshed, portfolio.holdings);
    db.UpdatePortfolio(portfolio.(holdings := refreshed));
    summary := PortfolioSummary(totalValue, totalInvested, totalGainLoss, totalGainLossPercent, portfolio.balance, refreshed);
  }

  /** GET /portfolio/holdings: provision, refresh every holding's price (stored), and list them. */
  method GetHoldings(db: InMemoryDatabase, userId: string) returns (holdings: seq<Holding>)
    requires db.Valid()
    modifies db
    ensures db.Valid()
    ensures var p := Provisioned(old(db.portfolios), userId);
      && holdings == Refresh(p.holdings, old(db.stocks))
      && db.portfolios == old(db.portfolios)[userId := p.(holdings := holdings)]
    ensures db.users == old(db.users) && db.userOrder == old(db.userOrder)
    ensures db.stocks == old(db.stocks) && db.transactions == old(db.transactions)
  {
    var portfolio := GetOrCreatePortfolio(db, userId);
    holdings := RefreshPrices(portfolio.holdings, db.stocks);
    RefreshPreserves(portfolio, db.stocks);
    db.UpdatePortfolio(portfolio.(holdings := holdings));
  }

  /** GET /portfolio/balance: provision and report the stored cash balance; holdings are not touched. */
  method GetBalance(db: InMemoryDatabase, userId: string) returns (balance: real)
    requires db.Valid()
    modifies db
    ensures db.Valid()
    ensures var p := Provisioned(old(db.portfolios), userId);
      balance == p.balance && db.portfolios == old(db.portfolios)[userId := p]
    ensures balance >= 0.0
    ensures db.users == old(db.users) && db.userOrder == old(db.userOrder)
    ensures db.stocks == old(db.stocks) && db.transactions == old(db.transactions)
  {
    var portfolio := GetOrCreatePortfolio(db, userId);
    balance := portfolio.balance;
  }
}
