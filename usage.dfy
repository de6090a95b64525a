/** Direct usage of one symbol: what it calls and what calls it, one hop each way. */
module Usage {
  import opened Common
  import opened Graph

  datatype UsageResult = UsageResult(symbol: GraphSymbol, calls: seq<GraphSymbol>, calledBy: seq<GraphSymbol>)

  /**
   * `get_usage`: load the graph, take the first symbol with that name and file path, then select
   * from the symbol table, in table order, the symbols it calls and the symbols that call it.
   */
  method GetUsage(file: GraphFile, symbolName: string, filePath: string) returns (r: Result<UsageResult, QueryError>)
    ensures file.Missing? ==> r == Err(GraphNotFound)
    ensures file.Undecodable? ==> r == Err(InvalidGraph)
    ensures file.Unreadable? ==> r == Err(ReadFailure)
    ensures file.Decoded? ==>
      var g := LoadGraph(file).value;
      && (r.Err? <==> forall s :: s in g.symbols ==> !Names(s, symbolName, filePath))
      && (r.Err? ==> r.error == SymbolNotFound)
      && (r.Ok? ==>
            && (exists i :: 0 <= i < |g.symbols| && g.symbols[i] == r.value.symbol
                             && forall j :: 0 <= j < i ==> !Names(g.symbols[j], symbolName, filePath))
            && Names(r.value.symbol, symbolName, filePath)
            && (forall s :: s in r.value.calls <==> s in g.symbols && Edge(r.value.symbol.id, s.id) in g.edges)
            && (forall s :: s in r.value.calledBy <==> s in g.symbols && Edge(s.id, r.value.symbol.id) in g.edges)
            && IsSubsequence(r.value.calls, g.symbols) && multiset(r.value.calls) <= multiset(g.symbols)
            && IsSubsequence(r.value.calledBy, g.symbols) && multiset(r.value.calledBy) <= multiset(g.symbols)
            && (forall s :: multiset(r.value.calls)[s]
                  == if Edge(r.value.symbol.id, s.id) in g.edges then multiset(g.symbols)[s] else 0)
            && (forall s :: multiset(r.value.calledBy)[s]
                  == if Edge(s.id, r.value.symbol.id) in g.edges then multiset(g.symbols)[s] else 0))
  {
    var loaded := LoadGraph(file);
    if loaded.Err? {
      return Err(loaded.error);
    }
    var symbols := loaded.value.symbols;
    var edges := loaded.value.edges;

    var symbol: Option<GraphSymbol> := None;
    var i := 0;
    while i < |symbols|
      invariant 0 <= i <= |symbols|
      invariant symbol.None?
      invariant forall j :: 0 <= j < i ==> !Names(symbols[j], symbolName, filePath)
    {
      if symbols[i].name == symbolName && symbols[i].filePath == filePath {
        symbol := Some(symbols[i]);
        break;
      }
      i := i + 1;
    }

    if symbol.None? {
      return Err(SymbolNotFound);
    }
    assert symbol.value in symbols;
    var id := symbol.value.id;
    var calls := SelectSymbols(symbols, Ids(Callees(edges, id)));
    var calledBy := SelectSymbols(symbols, Ids(Callers(edges, id)));
    r := Ok(UsageResult(symbol.value, calls, calledBy));
  }

  /** No two entries share an id. */
  predicate DistinctIds(symbols: seq<GraphSymbol>) {
    forall i, j :: 0 <= i < j < |symbols| ==> symbols[i].id != symbols[j].id
  }

  lemma DistinctIdsCons(x: GraphSymbol, rest: seq<GraphSymbol>)
    requires DistinctIds(rest)
    requires forall s :: s in rest ==> s.id != x.id
    ensures DistinctIds([x] + rest)
  {
    var r := [x] + rest;
    forall i, j | 0 <= i < j < |r| ensures r[i].id != r[j].id {
      assert r[j] == rest[j - 1];
      if i > 0 {
        assert r[i] == rest[i - 1];
      }
    }
  }

  /** A symbol table with distinct ids yields call lists with distinct entries, however many edges repeat. */
  lemma {:induction false} SelectionKeepsIdsDistinct(symbols: seq<GraphSymbol>, ids: set<int>)
    requires DistinctIds(symbols)
    ensures DistinctIds(SelectSymbols(symbols, ids))
  {
    if symbols != [] {
      var tail := symbols[1..];
      assert DistinctIds(tail) by {
        forall i, j | 0 <= i < j < |tail| ensures tail[i].id != tail[j].id {
          assert tail[i] == symbols[i + 1] && tail[j] == symbols[j + 1];
        }
      }
      SelectionKeepsIdsDistinct(tail, ids);
      var rest := SelectSymbols(tail, ids);
      forall s | s in rest ensures s.id != symbols[0].id {
        var k :| 0 <= k < |tail| && tail[k] == s;
        assert tail[k] == symbols[k + 1];
      }
      if symbols[0].id in ids {
        DistinctIdsCons(symbols[0], rest);
      }
    }
  }
}
