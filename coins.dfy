/**
  The record model of the crypto data table: one market quote per coin, the
  fields a column can be sorted by, and the comparison the table's sort uses.
 */
module Coins {

  /** One UTF-16 code unit: JavaScript strings are sequences of these. */
  newtype CodeUnit = u: int | 0 <= u < 0x1_0000

  /** A JavaScript string, including unpaired surrogates. */
  type JsString = seq<CodeUnit>

  /** One quote of the batch the remote market endpoint returns. */
  datatype Coin = Coin(
    id: JsString,
    name: JsString,
    symbol: JsString,
    currentPrice: real,
    priceChange24h: real,   // price_change_percentage_24h, in percentage points
    marketCap: real
  )

  /** The record fields the sort configuration may name. */
  datatype SortKey = Id | Name | Symbol | CurrentPrice | PriceChange24h | MarketCap

  datatype Direction = Asc | Desc

  datatype SortConfig = SortConfig(key: SortKey, direction: Direction)

  /**
    JavaScript's `<` on two strings: lexicographic by UTF-16 code unit, a
    proper prefix first.
   */
  predicate StrLess(s: JsString, t: JsString)
  {
    if |s| == 0 then |t| > 0
    else if |t| == 0 then false
    else if s[0] != t[0] then s[0] < t[0]
    else StrLess(s[1..], t[1..])
  }

  lemma {:induction false} StrLessIrreflexive(s: JsString)
    ensures !StrLess(s, s)
  {
    if |s| > 0 {
      StrLessIrreflexive(s[1..]);
    }
  }

  lemma {:induction false} StrLessTransitive(s: JsString, t: JsString, u: JsString)
    requires StrLess(s, t) && StrLess(t, u)
    ensures StrLess(s, u)
  {
    if |s| > 0 && |t| > 0 && |u| > 0 && s[0] == t[0] && t[0] == u[0] {
      StrLessTransitive(s[1..], t[1..], u[1..]);
    }
  }

  /** Two different strings are always ordered one way or the other. */
  lemma {:induction false} StrLessTotal(s: JsString, t: JsString)
    ensures s == t || StrLess(s, t) || StrLess(t, s)
  {
    if |s| > 0 && |t| > 0 && s[0] == t[0] {
      StrLessTotal(s[1..], t[1..]);
      if s[1..] == t[1..] {
        assert s == [s[0]] + s[1..] && t == [t[0]] + t[1..];
      }
    }
  }

  lemma {:induction false} StrLessAsymmetric(s: JsString, t: JsString)
    ensures !(StrLess(s, t) && StrLess(t, s))
  {
    if StrLess(s, t) && StrLess(t, s) {
      StrLessTransitive(s, t, s);
      StrLessIrreflexive(s);
    }
  }

  /** `a[key] > b[key]`: the only primitive comparison the sort comparator uses. */
  predicate Above(a: Coin, b: Coin, key: SortKey)
  {
    match key
    case Id => StrLess(b.id, a.id)
    case Name => StrLess(b.name, a.name)
    case Symbol => StrLess(b.symbol, a.symbol)
    case CurrentPrice => a.currentPrice > b.currentPrice
    case PriceChange24h => a.priceChange24h > b.priceChange24h
    case MarketCap => a.marketCap > b.marketCap
  }

  /** The two coins carry the same value in the `key` field. */
  predicate SameKey(a: Coin, b: Coin, key: SortKey)
  {
    match key
    case Id => a.id == b.id
    case Name => a.name == b.name
    case Symbol => a.symbol == b.symbol
    case CurrentPrice => a.currentPrice == b.currentPrice
    case PriceChange24h => a.priceChange24h == b.priceChange24h
    case MarketCap => a.marketCap == b.marketCap
  }

  /** Two coins are either tied on the key or strictly ordered one way, never both ways. */
  lemma AboveTrichotomy(a: Coin, b: Coin, key: SortKey)
    ensures SameKey(a, b, key) || Above(a, b, key) || Above(b, a, key)
    ensures !(Above(a, b, key) && Above(b, a, key))
    ensures SameKey(a, b, key) ==> !Above(a, b, key) && !Above(b, a, key)
  {
    match key
    case Id =>
      StrLessTotal(a.id, b.id); StrLessAsymmetric(a.id, b.id); StrLessIrreflexive(a.id);
    case Name =>
      StrLessTotal(a.name, b.name); StrLessAsymmetric(a.name, b.name); StrLessIrreflexive(a.name);
    case Symbol =>
      StrLessTotal(a.symbol, b.symbol); StrLessAsymmetric(a.symbol, b.symbol); StrLessIrreflexive(a.symbol);
    case _ =>
  }

  /** "Not above" is transitive: `a[key] <= b[key] <= c[key]` gives `a[key] <= c[key]`. */
  lemma NotAboveTransitive(a: Coin, b: Coin, c: Coin, key: SortKey)
    requires !Above(a, b, key) && !Above(b, c, key)
    ensures !Above(a, c, key)
  {
    match key
    case Id =>
      StrLessTotal(a.id, b.id); StrLessTotal(b.id, c.id);
      if StrLess(c.id, a.id) {
        if StrLess(a.id, b.id) { StrLessTransitive(c.id, a.id, b.id); }
        if StrLess(b.id, c.id) { StrLessTransitive(b.id, c.id, a.id); }
        StrLessAsymmetric(c.id, b.id);
        StrLessAsymmetric(a.id, c.id);
      }
    case Name =>
      StrLessTotal(a.name, b.name); StrLessTotal(b.name, c.name);
      if StrLess(c.name, a.name) {
        if StrLess(a.name, b.name) { StrLessTransitive(c.name, a.name, b.name); }
        if StrLess(b.name, c.name) { StrLessTransitive(b.name, c.name, a.name); }
        StrLessAsymmetric(c.name, b.name);
        StrLessAsymmetric(a.name, c.name);
      }
    case Symbol =>
      StrLessTotal(a.symbol, b.symbol); StrLessTotal(b.symbol, c.symbol);
      if StrLess(c.symbol, a.symbol) {
        if StrLess(a.symbol, b.symbol) { StrLessTransitive(c.symbol, a.symbol, b.symbol); }
        if StrLess(b.symbol, c.symbol) { StrLessTransitive(b.symbol, c.symbol, a.symbol); }
        StrLessAsymmetric(c.symbol, b.symbol);
        StrLessAsymmetric(a.symbol, c.symbol);
      }
    case _ =>
  }

  /**
    The comparator handed to the table's sort: ascending answers 1 when
    `a[key] > b[key]` and -1 otherwise, descending answers 1 when
    `a[key] < b[key]` and -1 otherwise. It never answers 0.
   */
  function Compare(a: Coin, b: Coin, cfg: SortConfig): (r: int)
    ensures r == 1 || r == -1
    ensures SameKey(a, b, cfg.key) ==> r == -1
  {
    AboveTrichotomy(a, b, cfg.key);
    match cfg.direction
    case Asc => if Above(a, b, cfg.key) then 1 else -1
    case Desc => if Above(b, a, cfg.key) then 1 else -1
  }

  /** The sort may place `a` before `b`: the comparator answers a negative number. */
  predicate InOrder(a: Coin, b: Coin, cfg: SortConfig)
  {
    Compare(a, b, cfg) < 0
  }

  /**
    On coins with different key values the comparator is antisymmetric; on a
    tie it answers -1 for both argument orders, so it is not a consistent
    comparator and the order of tied coins is left to the sort implementation.
   */
  lemma CompareConsistency(a: Coin, b: Coin, cfg: SortConfig)
    ensures Compare(a, b, cfg) == 1 || Compare(a, b, cfg) == -1
    ensures !SameKey(a, b, cfg.key) ==> Compare(a, b, cfg) == -Compare(b, a, cfg)
    ensures SameKey(a, b, cfg.key) ==> Compare(a, b, cfg) == -1 && Compare(b, a, cfg) == -1
  {
    AboveTrichotomy(a, b, cfg.key);
  }

  /** Any two coins may be placed one way round or the other. */
  lemma InOrderTotal(a: Coin, b: Coin, cfg: SortConfig)
    ensures InOrder(a, b, cfg) || InOrder(b, a, cfg)
  {
    AboveTrichotomy(a, b, cfg.key);
  }

  lemma InOrderTransitive(a: Coin, b: Coin, c: Coin, cfg: SortConfig)
    requires InOrder(a, b, cfg) && InOrder(b, c, cfg)
    ensures InOrder(a, c, cfg)
  {
    match cfg.direction
    case Asc => NotAboveTransitive(a, b, c, cfg.key);
    case Desc => NotAboveTransitive(c, b, a, cfg.key);
  }
}
