/**
 * The in-memory store of the exchange backend (app/infrastructure/database.py):
 * a user table kept in insertion order, a stock price table, one portfolio per
 * user id, and a journal of transactions kept newest first.
 */
module Database {
  import opened Models

  /** The five seeded instruments, keyed by ticker. */
  function SeedStocks(): (m: map<string, Stock>)
    ensures forall k :: k in m ==> m[k].ticker == k && m[k].price > 0.0
    ensures |m.Keys| == 5
  {
    var m := map[
      "LAFISE" := Stock("LAFISE", "LAFISE Nicaragua", 148.2, 5.1),
      "BANCEN" := Stock("BANCEN", "Banco Central", 96.8, -3.5),
      "AGRI" := Stock("AGRI", "Agrícola Nicaragua", 54.8, 5.2),
      "ENITEL" := Stock("ENITEL", "ENITEL Telecom", 80.5, 2.0),
      "CEMEX" := Stock("CEMEX", "CEMEX Nicaragua", 122.3, -2.8)];
    assert m.Keys == {"LAFISE", "BANCEN", "AGRI", "ENITEL", "CEMEX"};
    m
  }

  /** The portfolio every seeded user starts with: 1000.0 in cash, 50 LAFISE and 35 BANCEN. */
  function SeedPortfolio(userId: string): (p: Portfolio)
    ensures p.userId == userId && p.balance == 1000.0 && |p.holdings| == 2
    ensures WellFormed(p) && HeldListed(p, SeedStocks())
  {
    Portfolio(userId, 1000.0, [
      Holding("LAFISE", "LAFISE Nicaragua", 50, 140.5, 148.2, "2024-01-10"),
      Holding("BANCEN", "Banco Central", 35, 100.2, 96.8, "2023-12-15")])
  }

  /** The two demo users, an administrator "1" and a plain user "2". */
  function SeedUsers(adminHash: string, userHash: string): (m: map<string, User>)
    ensures m.Keys == {"1", "2"} && forall k :: k in m ==> m[k].id == k
    ensures m["1"].role == AdminRole && m["2"].role == UserRole
  {
    map[
      "1" := User("1", "Administrador Demo", "admin@bolsa.ni", "admin", adminHash, AdminRole),
      "2" := User("2", "Usuario Demo", "usuario@bolsa.ni", "usuario", userHash, UserRole)]
  }

  /** The three seeded journal entries, all of user "1". */
  function SeedTransactions(): (j: seq<Transaction>)
    ensures |j| == 3 && forall i :: 0 <= i < |j| ==> j[i].userId == "1" && j[i].txType == Buy
  {
    [Transaction("1", "1", Buy, "LAFISE", "LAFISE Nicaragua", 500, 140.5, 70250.0, "2024-01-10 09:30", "BAC Nicaragua"),
     Transaction("2", "1", Buy, "BANCEN", "Banco Central", 350, 100.2, 35070.0, "2023-12-15 14:20", "Banpro"),
     Transaction("3", "1", Buy, "AGRI", "Agrícola Nicaragua", 800, 52.0, 41600.0, "2024-01-05 10:15", "BAC Nicaragua")]
  }

  /** A login name matches a user when it equals the user's username or e-mail. */
  predicate LoginMatches(u: User, login: string) {
    u.username == login || u.email == login
  }

  /** The journal entries of one user, in journal order. */
  function ForUser(journal: seq<Transaction>, userId: string): (r: seq<Transaction>)
    ensures forall t :: t in r <==> t in journal && t.userId == userId
    ensures |r| <= |journal|
  {
    if journal == [] then []
    else (if journal[0].userId == userId then [journal[0]] else []) + ForUser(journal[1..], userId)
  }

  /** Filtering distributes over concatenation, so the filtered journal keeps the journal's order. */
  lemma {:induction false} ForUserConcat(a: seq<Transaction>, b: seq<Transaction>, userId: string)
    ensures ForUser(a + b, userId) == ForUser(a, userId) + ForUser(b, userId)
  {
    if a != [] {
      assert (a + b)[1..] == a[1..] + b;
      ForUserConcat(a[1..], b, userId);
    } else {
      assert a + b == b;
    }
  }

  /**
   * Prepending a record puts it first in its owner's view and leaves every
   * other user's view unchanged: the per-user journal is newest first.
   */
  lemma {:induction false} ForUserPrepend(t: Transaction, journal: seq<Transaction>, userId: string)
    ensures ForUser([t] + journal, userId) == (if t.userId == userId then [t] + ForUser(journal, userId) else ForUser(journal, userId))
  {
    ForUserConcat([t], journal, userId);
    assert ForUser([t], userId) == (if t.userId == userId then [t] else []) + ForUser([], userId);
  }

  /** The portfolio a handler works on: the stored one, or a fresh default one. */
  function Provisioned(portfolios: map<string, Portfolio>, userId: string): (p: Portfolio)
    ensures userId in portfolios ==> p == portfolios[userId]
    ensures userId !in portfolios ==> p.userId == userId && p.balance == 1000.0 && p.holdings == []
  {
    if userId in portfolios then portfolios[userId] else NewPortfolio(userId)
  }

  class InMemoryDatabase {
    var users: map<string, User>
    /** The keys of `users` in insertion order, the order the user table is scanned in. */
    var userOrder: seq<string>
    var stocks: map<string, Stock>
    var portfolios: map<string, Portfolio>
    /** The journal, newest first. */
    var transactions: seq<Transaction>

    /** Every stock is keyed by its ticker and has a non-negative price. */
    ghost predicate StocksValid()
      reads this
    {
      forall k :: k in stocks ==> stocks[k].ticker == k && stocks[k].price >= 0.0
    }

    /** Every portfolio is keyed by its user id, is well formed, and holds only listed tickers. */
    ghost predicate PortfoliosValid()
      reads this
    {
      forall k :: k in portfolios ==> portfolios[k].userId == k && WellFormed(portfolios[k]) && HeldListed(portfolios[k], stocks)
    }

    /** Every user is keyed by its id, and `userOrder` lists each key exactly once. */
    ghost predicate UsersValid()
      reads this
    {
      && (forall k :: k in users ==> users[k].id == k)
      && (forall k :: k in users <==> k in userOrder)
      && (forall i, j :: 0 <= i < j < |userOrder| ==> userOrder[i] != userOrder[j])
    }

    ghost predicate Valid()
      reads this
    {
      UsersValid() && StocksValid() && PortfoliosValid()
    }

    /** The store with its demo data; the two password hashes are configuration. */
    constructor (adminHash: string, userHash: string)
      ensures Valid()
      ensures userOrder == ["1", "2"]
      ensures users == SeedUsers(adminHash, userHash)
      ensures stocks == SeedStocks()
      ensures portfolios.Keys == users.Keys
      ensures forall k :: k in portfolios ==> portfolios[k] == SeedPortfolio(k)
      ensures transactions == SeedTransactions()
    {
      users, userOrder, stocks, portfolios, transactions := map[], [], map[], map[], [];
      new;
      users, userOrder := SeedUsers(adminHash, userHash), ["1", "2"];
      stocks := SeedStocks();
      var ids, seeded := userOrder, map[];
      for i := 0 to |ids|
        invariant forall k :: k in seeded <==> k in ids[..i]
        invariant forall k :: k in seeded ==> seeded[k] == SeedPortfolio(k)
      {
        seeded := seeded[ids[i] := SeedPortfolio(ids[i])];
      }
      assert ids[..|ids|] == ids;
      portfolios := seeded;
      transactions := SeedTransactions();
      assert UsersValid();
      assert PortfoliosValid();
    }

    function GetUserById(userId: string): (r: Option<User>)
      reads this
      ensures r.Some? <==> userId in users
      ensures r.Some? ==> r.value == users[userId]
    {
      if userId in users then Some(users[userId]) else None
    }

    /** The first user, in insertion order, whose username or e-mail equals `login`. */
    method GetUserByUsername(login: string) returns (r: Option<User>)
      requires Valid()
      ensures r.Some? ==> exists k :: 0 <= k < |userOrder| && r.value == users[userOrder[k]] &&
                            LoginMatches(r.value, login) && forall j :: 0 <= j < k ==> !LoginMatches(users[userOrder[j]], login)
      ensures r.None? <==> forall k :: k in users ==> !LoginMatches(users[k], login)
    {
      for i := 0 to |userOrder|
        invariant forall j :: 0 <= j < i ==> !LoginMatches(users[userOrder[j]], login)
      {
        var user := users[userOrder[i]];
        if user.username == login || user.email == login {
          return Some(user);
        }
      }
      return None;
    }

    /** Stores a user and gives that id a fresh default portfolio, replacing any previous one. */
    method CreateUser(user: User) returns (r: User)
      requires Valid()
      modifies this
      ensures Valid()
      ensures r == user
      ensures users == old(users)[user.id := user]
      ensures userOrder == if user.id in old(users) then old(userOrder) else old(userOrder) + [user.id]
      ensures portfolios == old(portfolios)[user.id := NewPortfolio(user.id)]
      ensures stocks == old(stocks) && transactions == old(transactions)
    {
      if user.id !in users {
        userOrder := userOrder + [user.id];
      }
      users := users[user.id := user];
      portfolios := portfolios[user.id := NewPortfolio(user.id)];
      r := user;
    }

    /** Exact, case-sensitive lookup of a ticker in the stock table. */
    function GetStock(ticker: string): (r: Option<Stock>)
      reads this
      ensures r.Some? <==> ticker in stocks
      ensures r.Some? ==> r.value == stocks[ticker]
      ensures r.Some? && StocksValid() ==> r.value.ticker == ticker && r.value.price >= 0.0
    {
      if ticker in stocks then Some(stocks[ticker]) else None
    }

    function GetPortfolio(userId: string): (r: Option<Portfolio>)
      reads this
      ensures r.Some? <==> userId in portfolios
      ensures r.Some? ==> r.value == portfolios[userId]
      ensures r.Some? && PortfoliosValid() ==> r.value.userId == userId && WellFormed(r.value)
    {
      if userId in portfolios then Some(portfolios[userId]) else None
    }

    /** Stores `p` under its user id; every other user's portfolio is unchanged. */
    method UpdatePortfolio(p: Portfolio)
      requires Valid()
      requires WellFormed(p) && HeldListed(p, stocks)
      modifies this
      ensures Valid()
      ensures portfolios == old(portfolios)[p.userId := p]
      ensures GetPortfolio(p.userId) == Some(p)
      ensures forall k :: k in old(portfolios) && k != p.userId ==> k in portfolios && portfolios[k] == old(portfolios)[k]
      ensures users == old(users) && userOrder == old(userOrder) && stocks == old(stocks) && transactions == old(transactions)
    {
      portfolios := portfolios[p.userId := p];
    }

    /** The records of one user, in journal order (newest first). */
    function GetTransactions(userId: string): (r: seq<Transaction>)
      reads this
      ensures forall t :: t in r <==> t in transactions && t.userId == userId
    {
      ForUser(transactions, userId)
    }

    /** Inserts a record at the head of the journal. */
    method AddTransaction(t: Transaction)
      modifies this
      ensures transactions == [t] + old(transactions)
      ensures GetTransactions(t.userId) == [t] + old(GetTransactions(t.userId))
      ensures forall u :: u != t.userId ==> GetTransactions(u) == old(GetTransactions(u))
      ensures users == old(users) && userOrder == old(userOrder) && stocks == old(stocks) && portfolios == old(portfolios)
    {
      ForUserPrepend(t, transactions, t.userId);
      forall u | u != t.userId
        ensures ForUser([t] + transactions, u) == ForUser(transactions, u)
      {
        ForUserPrepend(t, transactions, u);
      }
      transactions := [t] + transactions;
    }
  }

  /**
   * The lazy provisioning every handler starts with: the user's stored
   * portfolio, or a new default one that is stored before it is returned.
   */
  method GetOrCreatePortfolio(db: InMemoryDatabase, userId: string) returns (p: Portfolio)
    requires db.Valid()
    modifies db
    ensures db.Valid()
    ensures p == Provisioned(old(db.portfolios), userId)
    ensures p.userId == userId && WellFormed(p) && HeldListed(p, db.stocks)
    ensures db.portfolios == old(db.portfolios)[userId := p]
    ensures db.users == old(db.users) && db.userOrder == old(db.userOrder)
    ensures db.stocks == old(db.stocks) && db.transactions == old(db.transactions)
  {
    var stored := db.GetPortfolio(userId);
    if stored.None? {
      p := Portfolio(userId, 1000.0);
      db.UpdatePortfolio(p);
    } else {
      p := stored.value;
      assert db.portfolios == db.portfolios[userId := p];
    }
  }
}
