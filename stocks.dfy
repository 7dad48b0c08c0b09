/**
 * The tracked-stock list as values: the guard of the add handler, the append
 * that a successful fetch performs, and the filter of the remove handler.
 * The class in module App applies these to its state; the lemmas here are
 * what those transitions promise.
 */
module Stocks {
  import opened Wrappers
  import opened Series

  /** One tracked ticker with the series fetched for it. */
  datatype TrackedStock = TrackedStock(symbol: string, data: seq<DailyRecord>)

  /** The list's `find` by symbol succeeds. */
  predicate Tracks(stocks: seq<TrackedStock>, symbol: string) {
    exists i :: 0 <= i < |stocks| && stocks[i].symbol == symbol
  }

  /** At most one entry per symbol. */
  predicate UniqueSymbols(stocks: seq<TrackedStock>) {
    forall i, j :: 0 <= i < j < |stocks| ==> stocks[i].symbol != stocks[j].symbol
  }

  /** The add handler's guard: a non-empty symbol not already tracked. Only
      then is a fetch issued. */
  predicate AddAccepted(stocks: seq<TrackedStock>, symbol: string) {
    symbol != "" && !Tracks(stocks, symbol)
  }

  /** What the fetch does to the list: append one entry on success, nothing
      on failure (the error is caught and only logged). */
  function AfterFetch(stocks: seq<TrackedStock>, symbol: string, fetched: Result<seq<DailyRecord>, FetchError>): (r: seq<TrackedStock>)
    ensures |r| == |stocks| + (if fetched.Success? then 1 else 0)
    ensures r[..|stocks|] == stocks
    ensures fetched.Success? ==> r[|stocks|] == TrackedStock(symbol, fetched.value)
  {
    match fetched
    case Success(data) => stocks + [TrackedStock(symbol, data)]
    case Failure(_) => stocks
  }

  /** One whole add, run to completion before the next one starts. */
  function AfterAdd(stocks: seq<TrackedStock>, symbol: string, response: HttpResponse, startDate: int, endDate: int): (r: seq<TrackedStock>)
    ensures !AddAccepted(stocks, symbol) ==> r == stocks
    ensures FetchSeries(response, startDate, endDate).Failure? ==> r == stocks
    ensures AddAccepted(stocks, symbol) && FetchSeries(response, startDate, endDate).Success? ==>
      |r| == |stocks| + 1 && r[..|stocks|] == stocks
      && r[|stocks|] == TrackedStock(symbol, FetchSeries(response, startDate, endDate).value)
  {
    if AddAccepted(stocks, symbol) then AfterFetch(stocks, symbol, FetchSeries(response, startDate, endDate))
    else stocks
  }

  /** The remove handler's filter: drop every entry with the given symbol. */
  function RemoveSymbol(stocks: seq<TrackedStock>, symbol: string): (r: seq<TrackedStock>)
    ensures |r| <= |stocks|
  {
    if stocks == [] then []
    else
      (if stocks[0].symbol == symbol then [] else [stocks[0]])
      + RemoveSymbol(stocks[1..], symbol)
  }

  /** After an accepted add whose fetch succeeded, the symbol is tracked. */
  lemma AddTracksSymbol(stocks: seq<TrackedStock>, symbol: string, response: HttpResponse, startDate: int, endDate: int)
    requires AddAccepted(stocks, symbol) && FetchSeries(response, startDate, endDate).Success?
    ensures Tracks(AfterAdd(stocks, symbol, response, startDate, endDate), symbol)
  {
  }

  /** Adds run one at a time never make a symbol appear twice. */
  lemma AddKeepsSymbolsUnique(stocks: seq<TrackedStock>, symbol: string, response: HttpResponse, startDate: int, endDate: int)
    requires UniqueSymbols(stocks)
    ensures UniqueSymbols(AfterAdd(stocks, symbol, response, startDate, endDate))
  {
  }

  /** Remove keeps exactly the entries whose symbol differs. */
  lemma {:induction false} RemoveSymbolMembership(stocks: seq<TrackedStock>, symbol: string)
    ensures forall t :: t in RemoveSymbol(stocks, symbol) <==> t in stocks && t.symbol != symbol
  {
    if stocks != [] {
      RemoveSymbolMembership(stocks[1..], symbol);
      assert stocks == [stocks[0]] + stocks[1..];
    }
  }

  /** After a remove the symbol is no longer tracked. */
  lemma RemoveUntracks(stocks: seq<TrackedStock>, symbol: string)
    ensures !Tracks(RemoveSymbol(stocks, symbol), symbol)
  {
  }

  /** Removing an absent symbol changes nothing. */
  lemma {:induction false} RemoveAbsentIsNoOp(stocks: seq<TrackedStock>, symbol: string)
    requires !Tracks(stocks, symbol)
    ensures RemoveSymbol(stocks, symbol) == stocks
  {
    if stocks != [] {
      assert stocks[0].symbol != symbol;
      assert !Tracks(stocks[1..], symbol) by {
        forall i | 0 <= i < |stocks[1..]| ensures stocks[1..][i].symbol != symbol {
          assert stocks[1..][i] == stocks[i + 1];
        }
      }
      RemoveAbsentIsNoOp(stocks[1..], symbol);
      assert stocks == [stocks[0]] + stocks[1..];
    }
  }

  /** Remove works entry by entry and keeps the order of what it keeps:
      removing from a concatenation concatenates the results. */
  lemma {:induction false} RemoveSymbolAppend(a: seq<TrackedStock>, b: seq<TrackedStock>, symbol: string)
    ensures RemoveSymbol(a + b, symbol) == RemoveSymbol(a, symbol) + RemoveSymbol(b, symbol)
  {
    if a != [] {
      assert (a + b)[1..] == a[1..] + b;
      RemoveSymbolAppend(a[1..], b, symbol);
    } else {
      assert a + b == b;
    }
  }

  /** Remove on a one-entry list. */
  lemma RemoveSingle(t: TrackedStock, symbol: string)
    ensures RemoveSymbol([t], symbol) == if t.symbol == symbol then [] else [t]
  {
  }

  /** A list in which no symbol repeats has no other entry with the symbol at i. */
  lemma UniqueOutside(stocks: seq<TrackedStock>, i: int)
    requires UniqueSymbols(stocks) && 0 <= i < |stocks|
    ensures !Tracks(stocks[..i], stocks[i].symbol) && !Tracks(stocks[i + 1..], stocks[i].symbol)
  {
  }

  /** In a list with unique symbols, removing the symbol at position i
      deletes exactly that entry and leaves the others in their order. */
  lemma RemoveTrackedAt(stocks: seq<TrackedStock>, symbol: string, i: int)
    requires UniqueSymbols(stocks)
    requires 0 <= i < |stocks| && stocks[i].symbol == symbol
    ensures RemoveSymbol(stocks, symbol) == stocks[..i] + stocks[i + 1..]
  {
    var before, after := stocks[..i], stocks[i + 1..];
    assert stocks == (before + [stocks[i]]) + after;
    UniqueOutside(stocks, i);
    RemoveSymbolAppend(before + [stocks[i]], after, symbol);
    RemoveSymbolAppend(before, [stocks[i]], symbol);
    RemoveAbsentIsNoOp(before, symbol);
    RemoveAbsentIsNoOp(after, symbol);
    RemoveSingle(stocks[i], symbol);
    assert before + [] == before;
  }

  /** Remove never creates a duplicate symbol. */
  lemma {:induction false} RemoveKeepsSymbolsUnique(stocks: seq<TrackedStock>, symbol: string)
    requires UniqueSymbols(stocks)
    ensures UniqueSymbols(RemoveSymbol(stocks, symbol))
  {
    if stocks != [] {
      var tail := stocks[1..];
      assert UniqueSymbols(tail) by {
        forall i, j | 0 <= i < j < |tail| ensures tail[i].symbol != tail[j].symbol {
          assert tail[i] == stocks[i + 1] && tail[j] == stocks[j + 1];
        }
      }
      RemoveKeepsSymbolsUnique(tail, symbol);
      var rest := RemoveSymbol(tail, symbol);
      RemoveSymbolMembership(tail, symbol);
      if stocks[0].symbol != symbol {
        var r := [stocks[0]] + rest;
        forall i, j | 0 <= i < j < |r| ensures r[i].symbol != r[j].symbol {
          if i == 0 {
            assert r[j] in rest;
            var k :| 0 <= k < |tail| && tail[k] == r[j];
            assert tail[k] == stocks[k + 1];
          } else {
            assert r[i] == rest[i - 1] && r[j] == rest[j - 1];
          }
        }
      }
    }
  }

  /** Adding a symbol that was not tracked and then removing it restores the
      list, whether or not the fetch succeeded. */
  lemma AddThenRemoveRestores(stocks: seq<TrackedStock>, symbol: string, response: HttpResponse, startDate: int, endDate: int)
    requires AddAccepted(stocks, symbol)
    ensures RemoveSymbol(AfterAdd(stocks, symbol, response, startDate, endDate), symbol) == stocks
  {
    RemoveAbsentIsNoOp(stocks, symbol);
    var fetched := FetchSeries(response, startDate, endDate);
    if fetched.Success? {
      var added := TrackedStock(symbol, fetched.value);
      RemoveSymbolAppend(stocks, [added], symbol);
      RemoveSingle(added, symbol);
      assert stocks + [] == stocks;
    }
  }
}
