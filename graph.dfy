/**
 * The persisted call graph: the symbol table and edge list that indexing writes and that the
 * usage and impact queries read back, and the one-hop relations both queries compute over it.
 */
module Graph {
  import opened Common

  /** One entry of the graph's symbol table (`{"id", "name", "file_path", "type"}`). */
  datatype GraphSymbol = GraphSymbol(id: int, name: string, filePath: string, kind: string)

  /** `{"from": caller id, "to": callee id}`: the caller invokes the callee. */
  datatype Edge = Edge(from: int, to: int)

  datatype CallGraph = CallGraph(symbols: seq<GraphSymbol>, edges: seq<Edge>)

  /** What opening and decoding the project's graph file yields. */
  datatype GraphFile =
    | Missing                       // the file does not exist
    | Undecodable                   // the text is not JSON
    | Unreadable                    // any other error while opening or reading
    | Decoded(symbols: Option<seq<GraphSymbol>>, edges: Option<seq<Edge>>)  // keys may be absent

  datatype QueryError = GraphNotFound | InvalidGraph | ReadFailure | SymbolNotFound

  /** Loading the graph: a missing file and undecodable data are distinct failures; absent keys read as empty lists. */
  function LoadGraph(file: GraphFile): (r: Result<CallGraph, QueryError>)
    ensures r.Ok? <==> file.Decoded?
    ensures file.Missing? ==> r == Err(GraphNotFound)
    ensures file.Undecodable? ==> r == Err(InvalidGraph)
    ensures file.Unreadable? ==> r == Err(ReadFailure)
    ensures file.Decoded? && file.symbols.None? ==> r.value.symbols == []
    ensures file.Decoded? && file.edges.None? ==> r.value.edges == []
    ensures file.Decoded? && file.symbols.Some? ==> r.value.symbols == file.symbols.value
    ensures file.Decoded? && file.edges.Some? ==> r.value.edges == file.edges.value
  {
    match file
    case Missing => Err(GraphNotFound)
    case Undecodable => Err(InvalidGraph)
    case Unreadable => Err(ReadFailure)
    case Decoded(symbols, edges) => Ok(CallGraph(symbols.GetOr([]), edges.GetOr([])))
  }

  /** The lookup key both queries use: name and file path equal. */
  predicate Names(s: GraphSymbol, name: string, filePath: string) {
    s.name == name && s.filePath == filePath
  }

  /** The direct callees of `id`: the target of every edge leaving it, in edge order. */
  function Callees(edges: seq<Edge>, id: int): (r: seq<int>)
    ensures forall x :: x in r <==> Edge(id, x) in edges
    ensures |r| <= |edges|
  {
    if edges == [] then []
    else
      var last := edges[|edges| - 1];
      Callees(edges[..|edges| - 1], id) + (if last.from == id then [last.to] else [])
  }

  /** The direct callers of `id`: the source of every edge entering it, in edge order. */
  function Callers(edges: seq<Edge>, id: int): (r: seq<int>)
    ensures forall x :: x in r <==> Edge(x, id) in edges
    ensures |r| <= |edges|
  {
    if edges == [] then []
    else
      var last := edges[|edges| - 1];
      Callers(edges[..|edges| - 1], id) + (if last.to == id then [last.from] else [])
  }

  /** `r` keeps some of the elements of `s`, in their order in `s`. */
  predicate IsSubsequence<T(==)>(r: seq<T>, s: seq<T>) {
    if r == [] then true
    else if s == [] then false
    else if r[0] == s[0] then IsSubsequence(r[1..], s[1..])
    else IsSubsequence(r, s[1..])
  }

  /**
   * The symbols whose id is selected, in symbol-table order, each as often as it occurs in
   * the table however often its id is selected; a symbol with an unselected id is dropped.
   */
  function SelectSymbols(symbols: seq<GraphSymbol>, ids: set<int>): (r: seq<GraphSymbol>)
    ensures forall s :: s in r <==> s in symbols && s.id in ids
    ensures IsSubsequence(r, symbols)
    ensures multiset(r) <= multiset(symbols)
    ensures forall s :: multiset(r)[s] == if s.id in ids then multiset(symbols)[s] else 0
    ensures |r| <= |symbols|
  {
    if symbols == [] then []
    else
      var rest := SelectSymbols(symbols[1..], ids);
      assert symbols == [symbols[0]] + symbols[1..];
      if symbols[0].id in ids then [symbols[0]] + rest else rest
  }

  /** The ids listed in a sequence, as Python's `in` on a list sees them. */
  function Ids(xs: seq<int>): (r: set<int>)
    ensures forall x :: x in r <==> x in xs
  {
    set x | x in xs
  }
}
