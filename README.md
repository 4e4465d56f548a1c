# Trade ledger of the demo exchange backend, in Dafny

This project models the trade ledger of a small stock-exchange demo backend. Each user has a
portfolio: a cash balance and an ordered list of holdings, at most one per ticker. A user
buys and sells shares of listed stocks at the stock table's current price. Every trade that
goes through is recorded at the head of a newest-first journal. The model covers the
in-memory store, the buy and sell handlers, the portfolio views and lazy provisioning. Lazy
provisioning means that a user without a portfolio is given one (1000.0 in cash, no holdings)
on first access.

Files:

- `models.dfy` (module `Models`): the records `User`, `Stock`, `Holding`, `Transaction` and
  `Portfolio` as datatypes with the source's defaults. It also holds the portfolio invariant
  `WellFormed`: the balance is `>= 0`, every holding has `shares > 0` and non-negative prices,
  and no two holdings share a ticker.
- `database.dfy` (module `Database`): the store as the class `InMemoryDatabase`, whose
  fields the methods update. Its invariant `Valid()` says:
  - every stored portfolio is well formed, keyed by its user id, and holds only listed tickers;
  - every stock is keyed by its ticker and has a price `>= 0`;
  - the user table is keyed by id and scanned in insertion order.

  The module also has the seed data, the journal filter `ForUser`, and `GetOrCreatePortfolio`,
  the provisioning step every handler starts with.
- `transactions.dfy` (module `Transactions`): the buy and sell rules on one portfolio as
  functions (`BuyOn`, `SellOn`), with lemmas about them. The handlers' step-by-step updates
  (`BuyOnPortfolio`, `SellOnPortfolio`) and the handlers (`BuyStock`, `SellStock`) are methods proved to agree with
  those rules.
- `portfolio.dfy` (module `PortfolioApi`): the valuation summary, the holdings list and the
  balance view, each against the store.

Modelling choices:

- Money is an exact `real`, and share counts are `int`.
- A few inputs come from outside the model and are passed in as parameters: the generated
  transaction id (`txId`), the two clock readings (`today`, the purchase date of a new holding;
  `now`, the journal timestamp), and the demo password hashes.
- Failures are a `Result` value carrying a `TradeError` (`StockNotFound`, `InsufficientFunds`,
  `NoHolding`, `InsufficientShares`), in place of HTTP exceptions.
- The transactions listing handler (app/api/transactions.py:14-33) copies each record
  field for field. It is modelled by the store's `GetTransactions`.
- The holdings and summary responses copy each holding field for field, so the model returns
  the `Holding` values themselves.

Where the code and the design description of the system disagree, the model follows the code:

- A sell does not refresh the holding's current price (app/api/transactions.py:183-184).
- A non-positive share count is never rejected: there is no quantity check.
- A failed trade still stores a newly provisioned portfolio (app/api/transactions.py:50-55,
  145-150).
- The starting balance is the constant 1000.0, not a setting.
- The journal is one global list, and each new record is inserted at its front.
- There is no per-user locking.

## Model

| member | source | states |
|---|---|---|
| Models.RoleName | app/domain/models.py:14 | a role is stored as exactly "admin" or "user", and "user" exactly for the plain-user role (the default of `User`) |
| Models.TypeName | app/domain/models.py:42 | a transaction type is stored as exactly one of "compra" (buy) and "venta" (sell) |
| Models.NewPortfolio | app/domain/models.py:52-57 | a portfolio built from the defaults has balance 1000.0 and no holdings, and is well formed |
| Database.SeedStocks | app/infrastructure/database.py:49-55 | five stocks, each keyed by its own ticker, every price positive |
| Database.SeedUsers | app/infrastructure/database.py:30-46 | users "1" (admin) and "2" (user), each keyed by its id |
| Database.SeedPortfolio | app/infrastructure/database.py:57-68 | each seeded portfolio has 1000.0 cash and two holdings, is well formed, and holds only seeded tickers |
| Database.SeedTransactions | app/infrastructure/database.py:71-78 | three seeded buy records of user "1" |
| Database.ForUser | app/infrastructure/database.py:111-112 | the filtered journal holds exactly the records of that user |
| Database.ForUserConcat | app/infrastructure/database.py:111-112 | filtering distributes over concatenation, so journal order is kept |
| Database.ForUserPrepend | app/infrastructure/database.py:114-115 | a prepended record comes first in its owner's view; other users' views are unchanged |
| Database.Provisioned | app/api/transactions.py:49-55 | the stored portfolio if there is one, else a default one for that user |
| Database.InMemoryDatabase.constructor | app/infrastructure/database.py:19-78 | after seeding, the store is valid (every portfolio well formed, with listed tickers), with the seeded users, stocks, portfolios and journal |
| Database.InMemoryDatabase.GetUserById | app/infrastructure/database.py:81-82 | found exactly when the id is a key, and then it is that user |
| Database.InMemoryDatabase.GetUserByUsername | app/infrastructure/database.py:84-88 | the first user in insertion order whose username or e-mail equals the login; none exactly when no user matches |
| Database.InMemoryDatabase.CreateUser | app/infrastructure/database.py:90-94 | stores the user and replaces that id's portfolio with a default one; the rest is unchanged and the store stays valid |
| Database.InMemoryDatabase.GetStock | app/infrastructure/database.py:100-101 | exact, case-sensitive key lookup: found exactly when the ticker is a key, and the stock has that ticker |
| Database.InMemoryDatabase.GetPortfolio | app/infrastructure/database.py:104-105 | found exactly when the user id is a key, and then it is that stored portfolio |
| Database.InMemoryDatabase.UpdatePortfolio | app/infrastructure/database.py:107-108 | afterwards the lookup returns `p` and every other user's entry is unchanged |
| Database.InMemoryDatabase.GetTransactions | app/infrastructure/database.py:111-112 | exactly the journal records of that user |
| Database.InMemoryDatabase.AddTransaction | app/infrastructure/database.py:114-115 | the journal grows by one at index 0; the owner's view gains the record first, other views are unchanged |
| Database.GetOrCreatePortfolio | app/api/portfolio.py:16-21 | returns the stored portfolio or stores and returns a default one; a second call finds it |
| Transactions.Upper | app/api/transactions.py:42 | upper-casing keeps the length, leaves no lower-case ASCII letter, and changes nothing else |
| Transactions.UpperIdempotent | app/api/transactions.py:42 | upper-casing twice equals upper-casing once |
| Transactions.TickerIndex | app/api/transactions.py:71-75 | the first position holding the ticker, or none exactly when no holding has it |
| Transactions.FindHolding | app/api/transactions.py:152-159 | the scan returns the first index holding the ticker, or -1 exactly when none does |
| Transactions.Blend | app/api/transactions.py:77-87 | shares add up, the current price becomes the purchase price, and ticker, company and purchase date are kept |
| Transactions.BlendKeepsCost | app/api/transactions.py:79-86 | the new average times the new share count equals the old cost plus the new lot's cost, and the new average lies between the old average and the purchase price |
| Transactions.BlendBetween | app/api/transactions.py:80-83 | a positively weighted mean of two prices, computed by division, times the total weight is the weighted sum, and lies between the two prices |
| Transactions.MeanBetween | app/api/transactions.py:80-83 | a value whose product with the total of two positive weights is the weighted sum of two prices lies between them |
| Transactions.BlendExample | app/api/transactions.py:77-87 | 50 shares at 140.5 plus 10 at 160.0 give 60 at 143.75 |
| Transactions.BuyOn | app/api/transactions.py:57-98 | a buy fails with the available and required amounts exactly when the cost exceeds the balance; otherwise the balance drops by price*shares and stays >= 0 |
| Transactions.BuyHeld | app/api/transactions.py:71-87 | buying a held ticker changes only that holding, by `Blend`, and adds none |
| Transactions.BuyUnheld | app/api/transactions.py:88-98 | buying an unheld ticker appends exactly one holding with average and current price equal to the price |
| Transactions.BuyPreservesWellFormed | app/api/transactions.py:58-98 | a successful buy keeps balance >= 0, shares > 0 and unique tickers |
| Transactions.BuyPreservesListed | app/api/transactions.py:88-98 | a successful buy of a listed ticker keeps every held ticker listed |
| Transactions.FirstBuyExample | app/api/transactions.py:57-98 | from 1000.0 cash, 5 shares at 100.0 leave 500.0 and one holding of 5 at 100.0 |
| Transactions.SellOn | app/api/transactions.py:152-184 | a sell fails with no holding exactly when no holding has the ticker, and with the held count exactly when more shares are asked than the first matching holding has; otherwise the balance rises by price*shares |
| Transactions.SellAll | app/api/transactions.py:180-182 | selling the whole holding removes exactly it; the others keep their order and no holding has the ticker afterwards |
| Transactions.SellPart | app/api/transactions.py:183-184 | a partial sell lowers only that holding's shares; average and current price are untouched |
| Transactions.RemovePreserves | app/api/transactions.py:182 | removing one holding shifts the later ones down by one and keeps positivity and unique tickers |
| Transactions.SellPreservesWellFormed | app/api/transactions.py:174-184 | a successful sell keeps balance >= 0, shares > 0 and unique tickers |
| Transactions.SellPreservesListed | app/api/transactions.py:174-184 | a successful sell keeps every held ticker listed |
| Transactions.SellOutExample | app/api/transactions.py:174-184 | selling all 35 seeded BANCEN shares at 96.8 credits 3388.0 and leaves only the LAFISE holding |
| Transactions.Replay | app/api/transactions.py:36-202 | any run of buys and sells handled one at a time leaves the portfolio well formed: no overdraft, no empty holding, no duplicate ticker |
| Transactions.BuyOnPortfolio | app/api/transactions.py:57-98 | the handler's balance check, debit, scan and holding update give exactly the buy rule's outcome, error included, and a resulting portfolio is well formed |
| Transactions.SellOnPortfolio | app/api/transactions.py:152-184 | the handler's scan, both refusals, credit and holding update give exactly the sell rule's outcome, error included, and a resulting portfolio is well formed |
| Transactions.BuyStock | app/api/transactions.py:36-116 | an unknown ticker changes nothing; a refused buy only provisions; a buy that goes through stores the buy rule's portfolio and prepends one "compra" record with the stock's price and total price*shares; the store stays valid |
| Transactions.SellStock | app/api/transactions.py:131-202 | an unknown ticker changes nothing; a refused sell only provisions; a sell that goes through stores the sell rule's portfolio and prepends one "venta" record with total price*shares; the store stays valid |
| PortfolioApi.Refresh | app/api/portfolio.py:28-32 | same length and order; only current prices change, set to the stock's price for listed tickers and left as they were otherwise |
| PortfolioApi.GainLossPercent | app/api/portfolio.py:49 | with something invested, percent times invested equals gain times 100, with the gain's sign; otherwise 0, so there is no division by zero |
| PortfolioApi.Summarize | app/api/portfolio.py:28-37 | the loop's holdings are the refreshed holdings, and its totals are the sums of shares*avg_price and shares*current_price over them |
| PortfolioApi.RefreshPrices | app/api/portfolio.py:74-78 | the loop's holdings are the refreshed holdings |
| PortfolioApi.RefreshIdempotent | app/api/portfolio.py:28-32 | refreshing twice with the same table equals refreshing once |
| PortfolioApi.RefreshPreserves | app/api/portfolio.py:28-32 | refreshing keeps the portfolio well formed and its tickers listed |
| PortfolioApi.InvestedIgnoresPrices | app/api/portfolio.py:34-36 | the amount invested depends only on share counts and average prices, so a refresh does not change it |
| PortfolioApi.InvestedNonNegative | app/api/portfolio.py:34-37 | for well-formed holdings the invested amount and the value are >= 0 |
| PortfolioApi.GainSplit | app/api/portfolio.py:34-37 | both front-to-back sums equal the first holding's term plus the sum over the rest |
| PortfolioApi.GainIsSumOfHoldingGains | app/api/portfolio.py:48 | total gain equals the sum of shares*(current_price - avg_price) over holdings |
| PortfolioApi.SummaryStable | app/api/portfolio.py:28-58 | a second summary with no price change in between reports the same figures |
| PortfolioApi.GetPortfolio | app/api/portfolio.py:11-58 | provisions, stores the refreshed holdings, reports invested, value, gain = value - invested and the percent over them; the invested amount and the balance are the stored ones; nothing else changes |
| PortfolioApi.GetHoldings | app/api/portfolio.py:61-89 | provisions, stores and returns the refreshed holdings; nothing else changes |
| PortfolioApi.GetBalance | app/api/portfolio.py:92-104 | provisions and returns the stored balance (>= 0) without touching holdings |

## Left out

- Floating point: money is an exact `real`. The model has no IEEE rounding, no `:.2f`
  message formatting, and no history rounding.
- HTTP plumbing: routers, status codes, `HTTPException` detail strings, pydantic response
  schemas, app/main.py and app/api/__init__.py.
- Non-positive share counts: every trade requires `shares > 0`. The source never rejects other
  counts. Such a request is outside the model, and the portfolio invariant is not claimed for it.
- Transactions.Upper: only ASCII letters are upper-cased. Python's `str.upper` also maps
  non-ASCII letters (and may change a string's length), which tickers here do not use.
- Aliasing: portfolios and holdings are values, and writing a changed portfolio back into the
  store stands for the source's in-place mutation of the stored object. This covers the
  price refresh in the portfolio views, which the source keeps through aliasing without an
  explicit store write. Because values never alias, the `default_factory=list` guarantee
  (each portfolio owns its holdings list) holds by construction.
- Concurrency and locking: each handler is one atomic step, since the source has no locks.
- `uuid4` and `datetime.now` are passed in as inputs.
- The demo transactions' share counts are not related to the seeded holdings. The seeded
  journal is stored as written.
- The password hashes and configuration (app/core/config.py, app/core/__init__.py) are
  constructor parameters or left out.
- Authentication (app/api/auth.py) is left out. It depends on app/core/security.py, which is
  not part of this model, and on JWT. Its lookups go through `GetUserByUsername` and `CreateUser`.
- The stock endpoints (app/api/stocks.py) are left out. The price history is a random walk,
  and the list and lookup endpoints wrap `get_all_stocks` and `get_stock`. `get_all_stocks`
  itself is not modelled.
