/**
 The order books of MarketDataService.hpp: snapshot messages replace a symbol's book, incremental
 messages change it level by level, and each message emits the best bid and ask.
*/
module OrderBook {
  import opened Counting

  /** A level as it comes in a message: 64-bit price and quantity. */
  datatype Level = Level(price: int, qty: int)

  /** The conversion of a 64-bit integer to a 32-bit int, which wraps around. */
  function Narrow(x: int): int {
    (x + 0x8000_0000) % 0x1_0000_0000 - 0x8000_0000
  }

  datatype Kind = Snapshot | Incremental | Other

  datatype Message = Message(kind: Kind, symbol: string, bids: seq<Level>, asks: seq<Level>)

  datatype Book = Book(bids: map<int, int>, asks: map<int, int>)

  const EMPTY := Book(map[], map[])

  // What each loop computes.

  /** One pass of the snapshot loops: every level is stored, also one of quantity 0. */
  function Stored(side: map<int, int>, l: Level): map<int, int> {
    side[Narrow(l.price) := Narrow(l.qty)]
  }

  /** One pass of the incremental loops: quantity 0 erases. */
  function Changed(side: map<int, int>, l: Level): map<int, int> {
    if Narrow(l.qty) == 0 then side - {Narrow(l.price)} else side[Narrow(l.price) := Narrow(l.qty)]
  }

  function StoredAll(side: map<int, int>, ls: seq<Level>): map<int, int> {
    if ls == [] then side else Stored(StoredAll(side, ls[..|ls| - 1]), ls[|ls| - 1])
  }

  function ChangedAll(side: map<int, int>, ls: seq<Level>): map<int, int> {
    if ls == [] then side else Changed(ChangedAll(side, ls[..|ls| - 1]), ls[|ls| - 1])
  }

  /** The books after a message. An incremental message needs a book to change. */
  function Applied(books: map<string, Book>, m: Message): map<string, Book>
    requires m.kind.Incremental? ==> m.symbol in books
  {
    match m.kind
    case Snapshot => books[m.symbol := Book(StoredAll(map[], m.bids), StoredAll(map[], m.asks))]
    case Incremental =>
      var b := books[m.symbol];
      books[m.symbol := Book(ChangedAll(b.bids, m.bids), ChangedAll(b.asks, m.asks))]
    case Other => if m.symbol in books then books else books[m.symbol := EMPTY]
  }

  datatype Top = Top(instrumentId: int, bid: Level, ask: Level)

  ghost predicate IsBest(side: map<int, int>, l: Level, highest: bool) {
    && l.price in side && side[l.price] == l.qty
    && forall p | p in side :: if highest then p <= l.price else l.price <= p
  }

  lemma {:induction false} MaxExists(s: set<int>) returns (m: int)
    requires s != {}
    ensures m in s && forall x | x in s :: x <= m
  {
    var first := Pick(s);
    var rest := s - {first};
    m := first;
    if rest != {} {
      var r := MaxExists(rest);
      m := if r > first then r else first;
    }
    forall x | x in s
      ensures x <= m
    {
      assert x == first || x in rest;
    }
  }

  lemma MinExists(s: set<int>) returns (m: int)
    requires s != {}
    ensures m in s && forall x | x in s :: m <= x
  {
    var negated := Image(s, x => -x);
    var p := Pick(s);
    assert -p in negated;
    var r := MaxExists(negated);
    m := -r;
    forall x | x in s
      ensures m <= x
    {
      assert -x in negated;
    }
  }

  class MarketDataService {
    var snapshotMap: map<string, Book>
    var symbolToId: map<string, int>

    constructor ()
      ensures snapshotMap == map[] && symbolToId == map[]
    {
      snapshotMap, symbolToId := map[], map[];
    }

    /** The ids that Connect enters. */
    method Connect()
      modifies this`symbolToId
      ensures symbolToId == old(symbolToId)["BTCUSD" := 1]["BTC_USDT" := 1]
    {
      symbolToId := symbolToId["BTCUSD" := 1];
      symbolToId := symbolToId["BTC_USDT" := 1];
      symbolToId := symbolToId["BTCUSD" := 1];
    }

    method StoreLevels(levels: seq<Level>) returns (side: map<int, int>)
      ensures side == StoredAll(map[], levels)
    {
      side := map[];
      for i := 0 to |levels|
        invariant side == StoredAll(map[], levels[..i])
      {
        assert levels[..i + 1][..i] == levels[..i];
        var price, qty := Narrow(levels[i].price), Narrow(levels[i].qty);
        side := side[price := qty];
      }
      assert levels[..|levels|] == levels;
    }

    /** The loop over bids. */
    method ChangeBids(start: map<int, int>, levels: seq<Level>) returns (side: map<int, int>)
      ensures side == ChangedAll(start, levels)
    {
      side := start;
      for i := 0 to |levels|
        invariant side == ChangedAll(start, levels[..i])
      {
        assert levels[..i + 1][..i] == levels[..i];
        var price, qty := Narrow(levels[i].price), Narrow(levels[i].qty);
        if qty == 0 {
          side := side - {price};
        } else {
          side := side[price := qty];
        }
      }
      assert levels[..|levels|] == levels;
    }

    /** The loop over asks, which stores first and then erases or stores again. */
    method ChangeAsks(start: map<int, int>, levels: seq<Level>) returns (side: map<int, int>)
      ensures side == ChangedAll(start, levels)
    {
      side := start;
      for i := 0 to |levels|
        invariant side == ChangedAll(start, levels[..i])
      {
        assert levels[..i + 1][..i] == levels[..i];
        var price, qty := Narrow(levels[i].price), Narrow(levels[i].qty);
        ghost var was := side;
        side := side[price := qty];
        if qty == 0 {
          side := side - {price};
          assert side == was - {price};
        } else {
          side := side[price := qty];
        }
      }
      assert levels[..|levels|] == levels;
    }

    /**
     The book branch of onMessage. The source reads the first and last entry of both sides at the end,
     and the symbol's entry for an incremental message, without looking whether they exist.
    */
    method OnMessage(m: Message) returns (top: Top)
      requires m.kind.Incremental? ==> m.symbol in snapshotMap
      requires var b := Applied(snapshotMap, m)[m.symbol]; b.bids != map[] && b.asks != map[]
      modifies this
      ensures snapshotMap == Applied(old(snapshotMap), m)
      ensures symbolToId == old(symbolToId)[m.symbol := top.instrumentId]
      ensures top.instrumentId == if m.symbol in old(symbolToId) then old(symbolToId)[m.symbol] else 0
      ensures IsBest(snapshotMap[m.symbol].bids, top.bid, true) && IsBest(snapshotMap[m.symbol].asks, top.ask, false)
    {
      if m.kind == Snapshot {
        if m.symbol !in snapshotMap {
          snapshotMap := snapshotMap[m.symbol := EMPTY];
        }
        var bids := StoreLevels(m.bids);
        var asks := StoreLevels(m.asks);
        snapshotMap := snapshotMap[m.symbol := Book(bids, asks)];
      } else if m.kind == Incremental {
        var s := snapshotMap[m.symbol];
        var bids := ChangeBids(s.bids, m.bids);
        var asks := ChangeAsks(s.asks, m.asks);
        snapshotMap := snapshotMap[m.symbol := Book(bids, asks)];
      }
      if m.symbol !in symbolToId {
        symbolToId := symbolToId[m.symbol := 0];
      }
      var s := snapshotMap[m.symbol];
      ghost var hi := MaxExists(s.bids.Keys);
      ghost var lo := MinExists(s.asks.Keys);
      var bid :| bid in s.bids && forall p | p in s.bids :: p <= bid;
      var ask :| ask in s.asks && forall p | p in s.asks :: ask <= p;
      top := Top(symbolToId[m.symbol], Level(bid, s.bids[bid]), Level(ask, s.asks[ask]));
    }
  }

  // The history, without the books.

  /** One level of the history of a side, as it was sent; `stored` if it came in a snapshot. */
  datatype Update = Update(price: int, qty: int, stored: bool)

  function Tagged(ls: seq<Level>, stored: bool): seq<Update> {
    seq(|ls|, i requires 0 <= i < |ls| => Update(ls[i].price, ls[i].qty, stored))
  }

  /** The updates as they reach the book. */
  function Narrowed(us: seq<Update>): seq<Update> {
    seq(|us|, i requires 0 <= i < |us| => Update(Narrow(us[i].price), Narrow(us[i].qty), us[i].stored))
  }

  function SideOf(m: Message, bids: bool): seq<Level> {
    if bids then m.bids else m.asks
  }

  /** The updates of one side of one symbol, from its latest snapshot on. */
  function Updates(history: seq<Message>, symbol: string, bids: bool): seq<Update> {
    if history == [] then []
    else
      var before, m := history[..|history| - 1], history[|history| - 1];
      if m.symbol != symbol || m.kind.Other? then Updates(before, symbol, bids)
      else if m.kind.Snapshot? then Tagged(SideOf(m, bids), true)
      else Updates(before, symbol, bids) + Tagged(SideOf(m, bids), false)
  }

  /** Update i is the last one of its price. */
  ghost predicate IsLast(us: seq<Update>, i: int, price: int) {
    0 <= i < |us| && us[i].price == price && forall j | i < j < |us| :: us[j].price != price
  }

  /** The declarative meaning: quantity q stands at the price because its last update says so. */
  ghost predicate Stands(us: seq<Update>, price: int, q: int) {
    exists i :: IsLast(us, i, price) && us[i].qty == q && (us[i].stored || q != 0)
  }

  predicate SnapshotSeen(history: seq<Message>, symbol: string) {
    exists i :: 0 <= i < |history| && history[i].symbol == symbol && history[i].kind.Snapshot?
  }

  /** A history in which every symbol's first message is a snapshot. */
  predicate WellStarted(history: seq<Message>) {
    forall i | 0 <= i < |history| :: history[i].kind.Snapshot? || SnapshotSeen(history[..i], history[i].symbol)
  }

  lemma WellStartedBefore(history: seq<Message>)
    requires WellStarted(history) && history != []
    ensures var before, m := history[..|history| - 1], history[|history| - 1];
      && WellStarted(before)
      && (m.kind.Snapshot? || SnapshotSeen(before, m.symbol))
      && forall s :: SnapshotSeen(history, s) <==> SnapshotSeen(before, s) || (m.kind.Snapshot? && m.symbol == s)
  {
    var before, m := history[..|history| - 1], history[|history| - 1];
    forall i | 0 <= i < |before|
      ensures before[i].kind.Snapshot? || SnapshotSeen(before[..i], before[i].symbol)
    {
      assert before[..i] == history[..i];
    }
    forall s
      ensures SnapshotSeen(history, s) <==> SnapshotSeen(before, s) || (m.kind.Snapshot? && m.symbol == s)
    {
      if i :| 0 <= i < |before| && before[i].symbol == s && before[i].kind.Snapshot? {
        assert history[i] == before[i];
      }
    }
  }

  /** The books after a history, from none. */
  function BooksAfter(history: seq<Message>): (books: map<string, Book>)
    requires WellStarted(history)
    ensures forall s: string :: s in books <==> SnapshotSeen(history, s)
  {
    if history == [] then map[]
    else
      WellStartedBefore(history);
      Applied(BooksAfter(history[..|history| - 1]), history[|history| - 1])
  }

  // Folding updates, and what the fold means.

  function Folded(side: map<int, int>, us: seq<Update>): map<int, int> {
    if us == [] then side
    else
      var u := us[|us| - 1];
      var before := Folded(side, us[..|us| - 1]);
      if u.stored || u.qty != 0 then before[u.price := u.qty] else before - {u.price}
  }

  lemma {:induction false} StoredAllIsFold(side: map<int, int>, ls: seq<Level>)
    ensures StoredAll(side, ls) == Folded(side, Narrowed(Tagged(ls, true)))
  {
    if ls != [] {
      StoredAllIsFold(side, ls[..|ls| - 1]);
      assert Narrowed(Tagged(ls, true))[..|ls| - 1] == Narrowed(Tagged(ls[..|ls| - 1], true));
    }
  }

  lemma {:induction false} ChangedAllIsFold(side: map<int, int>, ls: seq<Level>)
    ensures ChangedAll(side, ls) == Folded(side, Narrowed(Tagged(ls, false)))
  {
    if ls != [] {
      ChangedAllIsFold(side, ls[..|ls| - 1]);
      assert Narrowed(Tagged(ls, false))[..|ls| - 1] == Narrowed(Tagged(ls[..|ls| - 1], false));
    }
  }

  lemma {:induction false} FoldInTwo(side: map<int, int>, us: seq<Update>, vs: seq<Update>)
    ensures Folded(side, us + vs) == Folded(Folded(side, us), vs)
  {
    if vs == [] {
      assert us + vs == us;
    } else {
      FoldInTwo(side, us, vs[..|vs| - 1]);
      assert (us + vs)[..|us + vs| - 1] == us + vs[..|vs| - 1];
    }
  }

  /** The index of the last update of a price, or -1. */
  function LastIndex(us: seq<Update>, price: int): (i: int)
    ensures i >= 0 ==> IsLast(us, i, price)
    ensures i < 0 ==> i == -1 && forall j | 0 <= j < |us| :: us[j].price != price
  {
    if us == [] then -1
    else if us[|us| - 1].price == price then |us| - 1
    else LastIndex(us[..|us| - 1], price)
  }

  /** A price touched by the updates has what its last update says; another has what it had. */
  lemma {:induction false} FoldMeans(side: map<int, int>, us: seq<Update>, price: int)
    ensures var r, i := Folded(side, us), LastIndex(us, price);
      if i < 0 then (price in r <==> price in side) && (price in side ==> r[price] == side[price])
      else if us[i].stored || us[i].qty != 0 then price in r && r[price] == us[i].qty
      else price !in r
  {
    if us != [] && us[|us| - 1].price != price {
      FoldMeans(side, us[..|us| - 1], price);
    }
  }

  lemma StandsExactly(us: seq<Update>, price: int, q: int)
    ensures Stands(us, price, q) <==> price in Folded(map[], us) && Folded(map[], us)[price] == q
  {
    FoldMeans(map[], us, price);
    var i := LastIndex(us, price);
    if i >= 0 {
      assert forall j | IsLast(us, j, price) :: j == i;
    }
  }

  lemma NarrowedInTwo(side: map<int, int>, us: seq<Update>, vs: seq<Update>)
    ensures Folded(side, Narrowed(us + vs)) == Folded(Folded(side, Narrowed(us)), Narrowed(vs))
  {
    assert Narrowed(us + vs) == Narrowed(us) + Narrowed(vs);
    FoldInTwo(side, Narrowed(us), Narrowed(vs));
  }

  // The main results.

  lemma {:induction false} BooksAreFolds(history: seq<Message>, symbol: string)
    requires WellStarted(history) && SnapshotSeen(history, symbol)
    ensures var b := BooksAfter(history)[symbol];
      && b.bids == Folded(map[], Narrowed(Updates(history, symbol, true)))
      && b.asks == Folded(map[], Narrowed(Updates(history, symbol, false)))
  {
    var before, m := history[..|history| - 1], history[|history| - 1];
    WellStartedBefore(history);
    if m.symbol != symbol || m.kind.Other? {
      BooksAreFolds(before, symbol);
    } else if m.kind.Snapshot? {
      StoredAllIsFold(map[], m.bids);
      StoredAllIsFold(map[], m.asks);
    } else {
      BooksAreFolds(before, symbol);
      var b := BooksAfter(before)[symbol];
      ChangedAllIsFold(b.bids, m.bids);
      ChangedAllIsFold(b.asks, m.asks);
      NarrowedInTwo(map[], Updates(before, symbol, true), Tagged(m.bids, false));
      NarrowedInTwo(map[], Updates(before, symbol, false), Tagged(m.asks, false));
    }
  }

  /**
   After any history, a price stands in a symbol's book with quantity q exactly when the last update of
   that price since the symbol's latest snapshot says so: a snapshot level, or a nonzero change.
  */
  lemma BookMeansLastUpdate(history: seq<Message>, symbol: string, bids: bool, price: int, q: int)
    requires WellStarted(history) && SnapshotSeen(history, symbol)
    ensures var b := BooksAfter(history)[symbol]; var side := if bids then b.bids else b.asks;
      (price in side && side[price] == q) <==> Stands(Narrowed(Updates(history, symbol, bids)), price, q)
  {
    BooksAreFolds(history, symbol);
    StandsExactly(Narrowed(Updates(history, symbol, bids)), price, q);
  }

  predicate FitsInt(x: int) {
    -0x8000_0000 <= x < 0x8000_0000
  }

  lemma NarrowKeepsInts(x: int)
    ensures Narrow(x) == x <==> FitsInt(x)
  {
  }

  /** The narrowing is without effect exactly if all prices and quantities fit an int. */
  lemma NarrowedExactlyWhen(us: seq<Update>)
    ensures Narrowed(us) == us <==> forall u | u in us :: FitsInt(u.price) && FitsInt(u.qty)
  {
    forall i | 0 <= i < |us|
      ensures Narrowed(us)[i] == us[i] <==> FitsInt(us[i].price) && FitsInt(us[i].qty)
    {
      NarrowKeepsInts(us[i].price);
      NarrowKeepsInts(us[i].qty);
    }
    if Narrowed(us) == us {
      forall u | u in us
        ensures FitsInt(u.price) && FitsInt(u.qty)
      {
        var i :| 0 <= i < |us| && us[i] == u;
        assert Narrowed(us)[i] == us[i];
      }
    }
  }

  /** Then the book says of each price what the message said that mentioned it last. */
  lemma BookIsVerbatim(history: seq<Message>, symbol: string, bids: bool, price: int, q: int)
    requires WellStarted(history) && SnapshotSeen(history, symbol)
    requires forall u | u in Updates(history, symbol, bids) :: FitsInt(u.price) && FitsInt(u.qty)
    ensures var b := BooksAfter(history)[symbol]; var side := if bids then b.bids else b.asks;
      (price in side && side[price] == q) <==> Stands(Updates(history, symbol, bids), price, q)
  {
    BookMeansLastUpdate(history, symbol, bids, price, q);
    NarrowedExactlyWhen(Updates(history, symbol, bids));
  }

  /** A change of a level as it was sent. */
  function PlainlyChanged(side: map<int, int>, l: Level): map<int, int> {
    if l.qty == 0 then side - {l.price} else side[l.price := l.qty]
  }

  /** A change does to every book what the message says exactly if its price and its quantity fit an int. */
  lemma ChangeIsPlainExactlyWhen(l: Level)
    ensures (forall side :: Changed(side, l) == PlainlyChanged(side, l)) <==> FitsInt(l.price) && FitsInt(l.qty)
  {
    NarrowKeepsInts(l.price);
    NarrowKeepsInts(l.qty);
    var side := map[l.price := 1];
    if l.qty == 0 {
      assert l.price !in PlainlyChanged(side, l);
    } else {
      assert l.price in PlainlyChanged(map[], l) && PlainlyChanged(map[], l)[l.price] == l.qty;
      assert l.price in Changed(map[], l) ==> FitsInt(l.price) && Changed(map[], l)[l.price] == Narrow(l.qty);
    }
  }

  /** So a change to the quantity 2^32 erases the level that it should set. */
  lemma WideQuantityErases(side: map<int, int>, price: int)
    ensures Changed(side, Level(price, 0x1_0000_0000)) == side - {Narrow(price)}
  {
  }

  /** Repeating the same changes has no further effect. */
  lemma ChangesAreIdempotent(side: map<int, int>, ls: seq<Level>)
    ensures ChangedAll(ChangedAll(side, ls), ls) == ChangedAll(side, ls)
  {
    var us := Narrowed(Tagged(ls, false));
    var once := Folded(side, us);
    ChangedAllIsFold(side, ls);
    ChangedAllIsFold(once, ls);
    forall p
      ensures p in Folded(once, us) <==> p in once
      ensures p in once ==> Folded(once, us)[p] == once[p]
    {
      FoldMeans(side, us, p);
      FoldMeans(once, us, p);
    }
  }

  /** Applying one incremental message twice equals applying it once. */
  lemma IncrementalTwice(books: map<string, Book>, m: Message)
    requires m.kind.Incremental? && m.symbol in books
    ensures Applied(Applied(books, m), m) == Applied(books, m)
  {
    ChangesAreIdempotent(books[m.symbol].bids, m.bids);
    ChangesAreIdempotent(books[m.symbol].asks, m.asks);
  }

  /** A snapshot makes what came before it for that symbol, and for it alone, irrelevant. */
  lemma SnapshotForgets(h1: seq<Message>, h2: seq<Message>, m: Message, after: seq<Message>, symbol: string)
    requires m.kind.Snapshot? && m.symbol == symbol
    requires WellStarted(h1 + [m] + after) && WellStarted(h2 + [m] + after)
    ensures SnapshotSeen(h1 + [m] + after, symbol) && SnapshotSeen(h2 + [m] + after, symbol)
    ensures BooksAfter(h1 + [m] + after)[symbol] == BooksAfter(h2 + [m] + after)[symbol]
  {
    var k1, k2 := h1 + [m] + after, h2 + [m] + after;
    assert k1[|h1|] == m && k2[|h2|] == m;
    BooksAreFolds(k1, symbol);
    BooksAreFolds(k2, symbol);
    SameUpdates(h1, h2, m, after, symbol, true);
    SameUpdates(h1, h2, m, after, symbol, false);
  }

  lemma {:induction false} SameUpdates(
    h1: seq<Message>, h2: seq<Message>, m: Message, after: seq<Message>, symbol: string, bids: bool)
    requires m.kind.Snapshot? && m.symbol == symbol
    ensures Updates(h1 + [m] + after, symbol, bids) == Updates(h2 + [m] + after, symbol, bids)
  {
    var k1, k2 := h1 + [m] + after, h2 + [m] + after;
    if after == [] {
      assert k1[|k1| - 1] == m && k2[|k2| - 1] == m;
    } else {
      var n := |after| - 1;
      SameUpdates(h1, h2, m, after[..n], symbol, bids);
      assert k1[..|k1| - 1] == h1 + [m] + after[..n] && k2[..|k2| - 1] == h2 + [m] + after[..n];
      assert k1[|k1| - 1] == after[n] && k2[|k2| - 1] == after[n];
    }
  }
}
