/** `MarketDataCache` of `src/data/market_data.py`: an in-memory dictionary
    from a trading pair to its market data, kept as an association list
    whose keys are distinct, as a Python dict's are. */
module MarketCache {
  import opened Common
  import opened DataModels

  datatype Cache = Cache(data: seq<(string, MarketData)>)

  /** What a Python dict guarantees: no symbol is stored twice. */
  predicate Valid(c: Cache)
  {
    DistinctKeys(c.data)
  }

  function NewCache(): (c: Cache)
    ensures Valid(c) && GetSize(c) == 0
    ensures forall s :: !Has(c, s)
  {
    Cache([])
  }

  /** `has`: the symbol is one of the cache's keys. */
  predicate Has(c: Cache, symbol: string)
  {
    HasKey(c.data, symbol)
  }

  /** A symbol is cached exactly when some stored pair has it as key. */
  lemma HasMeansStored(c: Cache, symbol: string)
    ensures Has(c, symbol) <==> exists i :: 0 <= i < |c.data| && c.data[i].0 == symbol
  {
  }

  /** `get`: the stored data, or None for a symbol never added. */
  function Get(c: Cache, symbol: string): (r: Option<MarketData>)
    ensures r.None? <==> !Has(c, symbol)
    ensures r.Some? ==> (symbol, r.value) in c.data
  {
    Lookup(c.data, symbol)
  }

  /** `add`: store under the symbol, replacing what was there. */
  function Add(c: Cache, symbol: string, d: MarketData): (r: Cache)
    requires Valid(c)
    ensures Valid(r)
    ensures Has(r, symbol) && Get(r, symbol) == Some(d)
    ensures forall s :: s != symbol ==> Get(r, s) == Get(c, s)
    ensures GetSize(r) == if Has(c, symbol) then GetSize(c) else GetSize(c) + 1
  {
    var data := Put(c.data, symbol, d);
    PutKeepsDistinct(c.data, symbol, d);
    forall s | true
      ensures Lookup(data, s) == if s == symbol then Some(d) else Lookup(c.data, s)
    {
      PutThenLookup(c.data, symbol, d, s);
    }
    assert Lookup(data, symbol) == Some(d);
    Cache(data)
  }

  /** `remove`: True exactly when the symbol was cached; afterwards it is
      not, and every other symbol keeps its data. */
  function Remove(c: Cache, symbol: string): (r: (Cache, bool))
    requires Valid(c)
    ensures Valid(r.0)
    ensures r.1 <==> Has(c, symbol)
    ensures !Has(r.0, symbol)
    ensures forall s :: s != symbol ==> Get(r.0, s) == Get(c, s)
    ensures GetSize(r.0) == if r.1 then GetSize(c) - 1 else GetSize(c)
  {
    if Has(c, symbol) then
      var data := RemoveKey(c.data, symbol);
      RemoveKeepsDistinct(c.data, symbol);
      forall s | true
        ensures Lookup(data, s) == if s == symbol then None else Lookup(c.data, s)
      {
        RemoveThenLookup(c.data, symbol, s);
      }
      (Cache(data), true)
    else
      (c, false)
  }

  function Clear(c: Cache): (r: Cache)
    ensures Valid(r) && GetSize(r) == 0
    ensures forall s :: !Has(r, s)
  {
    Cache([])
  }

  function GetSymbols(c: Cache): (r: seq<string>)
    ensures |r| == |c.data|
    ensures forall i :: 0 <= i < |r| ==> r[i] == c.data[i].0
    ensures forall s :: s in r <==> Has(c, s)
  {
    var ks := Keys(c.data);
    assert forall s :: Has(c, s) ==> s in ks by {
      forall s | Has(c, s) ensures s in ks {
        var i :| 0 <= i < |c.data| && c.data[i].0 == s;
        assert ks[i] == s;
      }
    }
    ks
  }

  function GetSize(c: Cache): (n: nat)
    ensures n == |GetSymbols(c)|
  {
    |c.data|
  }

  /** `get_symbols` lists symbols in insertion order: adding a new symbol
      appends it, and replacing the data of a stored one moves nothing. */
  lemma AddKeepsOrder(c: Cache, symbol: string, d: MarketData)
    requires Valid(c)
    ensures !Has(c, symbol) ==> GetSymbols(Add(c, symbol, d)) == GetSymbols(c) + [symbol]
    ensures Has(c, symbol) ==> GetSymbols(Add(c, symbol, d)) == GetSymbols(c)
  {
    PutKeysOrder(c.data, symbol, d);
  }

  /** Adding and then removing a symbol leaves every lookup as it was
      before the add, except that the symbol itself is now absent. */
  lemma AddThenRemove(c: Cache, symbol: string, d: MarketData)
    requires Valid(c)
    ensures var (r, removed) := Remove(Add(c, symbol, d), symbol);
      && removed
      && Get(r, symbol).None?
      && (forall s :: s != symbol ==> Get(r, s) == Get(c, s))
      && GetSize(r) == if Has(c, symbol) then GetSize(c) - 1 else GetSize(c)
  {
  }

  /** Re-adding a symbol overwrites its data without growing the cache. */
  lemma AddOverwrites(c: Cache, symbol: string, d1: MarketData, d2: MarketData)
    requires Valid(c)
    ensures var r := Add(Add(c, symbol, d1), symbol, d2);
      && Get(r, symbol) == Some(d2)
      && GetSize(r) == GetSize(Add(c, symbol, d1))
  {
  }

  /** Removing a symbol twice: the second call finds nothing to remove and
      changes nothing. */
  lemma RemoveTwice(c: Cache, symbol: string)
    requires Valid(c)
    ensures var once := Remove(c, symbol).0;
      Remove(once, symbol) == (once, false)
  {
  }
}
