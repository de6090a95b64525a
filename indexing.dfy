/**
 * Project indexing: walk the project's source files, turn every extracted symbol into one embedding
 * and one metadata record, and build the call graph from the symbols' raw call names.
 */
module Indexing {
  import opened Common
  import opened Graph
  import opened Embedding

  // ---------------------------------------------------------------------------------------------
  // The call-graph builder

  /** One builder input: a symbol, the file it was found in, and the raw names it calls. */
  datatype SymbolWithCalls = SymbolWithCalls(name: string, filePath: string, kind: string, calls: seq<string>)

  /** The builder's lookup key, `(name, file_path)`. */
  datatype Key = Key(name: string, filePath: string)

  function KeyOf(s: SymbolWithCalls): Key {
    Key(s.name, s.filePath)
  }

  /** No later input shares the key of the input at position `i`. */
  predicate IsLastOccurrence(input: seq<SymbolWithCalls>, i: int)
    requires 0 <= i < |input|
  {
    forall j :: i < j < |input| ==> KeyOf(input[j]) != KeyOf(input[i])
  }

  /** `symbol_map`: every key of the input maps to its position + 1, a later duplicate overwriting an earlier one. */
  function SymbolMap(input: seq<SymbolWithCalls>): (ids: map<Key, int>)
    ensures forall i :: 0 <= i < |input| ==> KeyOf(input[i]) in ids
  {
    if input == [] then map[]
    else SymbolMap(input[..|input| - 1])[KeyOf(input[|input| - 1]) := |input|]
  }

  /** Each key resolves to the id of its last occurrence. */
  lemma {:induction false} SymbolMapLast(input: seq<SymbolWithCalls>, k: Key)
    requires k in SymbolMap(input)
    ensures var id := SymbolMap(input)[k];
            1 <= id <= |input| && KeyOf(input[id - 1]) == k && IsLastOccurrence(input, id - 1)
  {
    var n := |input|;
    if KeyOf(input[n - 1]) != k {
      var init := input[..n - 1];
      SymbolMapLast(init, k);
      var id := SymbolMap(init)[k];
      assert input[id - 1] == init[id - 1];
      forall j | id - 1 < j < n ensures KeyOf(input[j]) != KeyOf(input[id - 1]) {
        if j < n - 1 {
          assert input[j] == init[j];
        }
      }
    }
  }

  /** `symbols`: one graph entry per input, numbered 1..n in input order. */
  function NumberedSymbols(input: seq<SymbolWithCalls>): seq<GraphSymbol> {
    seq(|input|, i requires 0 <= i < |input| => GraphSymbol(i + 1, input[i].name, input[i].filePath, input[i].kind))
  }

  /** The call `call` names `name`: exactly, or as the method part of a dotted name. */
  predicate IsCallMatch(call: string, name: string) {
    call == name || EndsWith(name, "." + call)
  }

  /** The input at position `k` is a target the caller `fromId` may get for `call`. */
  predicate Eligible(input: seq<SymbolWithCalls>, ids: map<Key, int>, fromId: int, call: string, k: int)
    requires 0 <= k < |input|
  {
    var targetId := Lookup(ids, KeyOf(input[k]));
    targetId.Some? && targetId.value != 0 && targetId.value != fromId && IsCallMatch(call, input[k].name)
  }

  /** The scan over all inputs for one call, from position `j`: the id of the first eligible target. */
  function FirstTarget(input: seq<SymbolWithCalls>, ids: map<Key, int>, fromId: int, call: string, j: nat): (r: Option<int>)
    requires j <= |input|
    ensures r.Some? ==> exists k :: j <= k < |input| && Eligible(input, ids, fromId, call, k) && Lookup(ids, KeyOf(input[k])) == r
    decreases |input| - j
  {
    if j == |input| then None
    else if Eligible(input, ids, fromId, call, j) then Lookup(ids, KeyOf(input[j]))
    else FirstTarget(input, ids, fromId, call, j + 1)
  }

  /** The edges of one caller: at most one per call name, in call order. */
  function CallEdges(input: seq<SymbolWithCalls>, ids: map<Key, int>, fromId: int, calls: seq<string>): (r: seq<Edge>)
    ensures |r| <= |calls|
    ensures forall e :: e in r ==>
              && e.from == fromId
              && exists k, c :: 0 <= k < |input| && c in calls && Eligible(input, ids, fromId, c, k)
                                 && Lookup(ids, KeyOf(input[k])) == Some(e.to)
  {
    if calls == [] then []
    else
      var init := calls[..|calls| - 1];
      var call := calls[|calls| - 1];
      var rest := CallEdges(input, ids, fromId, init);
      assert forall c :: c in init ==> c in calls;
      match FirstTarget(input, ids, fromId, call, 0)
      case None => rest
      case Some(t) => rest + [Edge(fromId, t)]
  }

  /** The edges of one input entry; an entry whose key is not in the map contributes none. */
  function SymbolEdges(input: seq<SymbolWithCalls>, ids: map<Key, int>, sym: SymbolWithCalls): seq<Edge> {
    match Lookup(ids, KeyOf(sym))
    case None => []
    case Some(fromId) => CallEdges(input, ids, fromId, sym.calls)
  }

  /** The edges of the first `n` entries, in entry order. */
  function EdgesUpTo(input: seq<SymbolWithCalls>, ids: map<Key, int>, n: nat): seq<Edge>
    requires n <= |input|
  {
    if n == 0 then [] else EdgesUpTo(input, ids, n - 1) + SymbolEdges(input, ids, input[n - 1])
  }

  function EdgesOf(input: seq<SymbolWithCalls>): seq<Edge> {
    EdgesUpTo(input, SymbolMap(input), |input|)
  }

  /** `_build_call_graph` as a value: the numbered symbols and the edges. */
  function CallGraphOf(input: seq<SymbolWithCalls>): CallGraph {
    CallGraph(NumberedSymbols(input), EdgesOf(input))
  }

  /** The inner scan of `_build_call_graph`: the first eligible target for one call, stopping there. */
  method FindTarget(input: seq<SymbolWithCalls>, symbolMap: map<Key, int>, fromId: int, call: string)
    returns (target: Option<int>)
    ensures target == FirstTarget(input, symbolMap, fromId, call, 0)
  {
    var t := 0;
    while t < |input|
      invariant 0 <= t <= |input|
      invariant FirstTarget(input, symbolMap, fromId, call, 0) == FirstTarget(input, symbolMap, fromId, call, t)
    {
      var targetId := Lookup(symbolMap, KeyOf(input[t]));
      if targetId.Some? && targetId.value != 0 && targetId.value != fromId && IsCallMatch(call, input[t].name) {
        return targetId;
      }
      t := t + 1;
    }
    target := None;
  }

  /** The first loop of `_build_call_graph`: number the inputs and fill the key table. */
  method NumberSymbols(input: seq<SymbolWithCalls>) returns (symbols: seq<GraphSymbol>, symbolMap: map<Key, int>)
    ensures symbols == NumberedSymbols(input)
    ensures symbolMap == SymbolMap(input)
  {
    symbols := [];
    symbolMap := map[];
    var idx := 0;
    while idx < |input|
      invariant 0 <= idx <= |input|
      invariant symbolMap == SymbolMap(input[..idx])
      invariant symbols == NumberedSymbols(input[..idx])
    {
      assert input[..idx + 1][..idx] == input[..idx];
      symbolMap := symbolMap[KeyOf(input[idx]) := idx + 1];
      symbols := symbols + [GraphSymbol(idx + 1, input[idx].name, input[idx].filePath, input[idx].kind)];
      idx := idx + 1;
    }
    assert input[..idx] == input;
  }

  /** The loop over one caller's call names, each scanned with `FindTarget`. */
  method CallerEdges(input: seq<SymbolWithCalls>, symbolMap: map<Key, int>, fromId: int, calls: seq<string>)
    returns (edges: seq<Edge>)
    ensures edges == CallEdges(input, symbolMap, fromId, calls)
  {
    edges := [];
    var c := 0;
    while c < |calls|
      invariant 0 <= c <= |calls|
      invariant edges == CallEdges(input, symbolMap, fromId, calls[..c])
    {
      assert calls[..c + 1][..c] == calls[..c];
      var target := FindTarget(input, symbolMap, fromId, calls[c]);
      if target.Some? {
        edges := edges + [Edge(fromId, target.value)];
      }
      c := c + 1;
    }
    assert calls[..c] == calls;
  }

  /** The second loop of `_build_call_graph`: the edges of every input, in input order. */
  method CollectEdges(input: seq<SymbolWithCalls>, symbolMap: map<Key, int>) returns (edges: seq<Edge>)
    ensures edges == EdgesUpTo(input, symbolMap, |input|)
  {
    edges := [];
    var s := 0;
    while s < |input|
      invariant 0 <= s <= |input|
      invariant edges == EdgesUpTo(input, symbolMap, s)
    {
      var sym := input[s];
      assert EdgesUpTo(input, symbolMap, s + 1) == edges + SymbolEdges(input, symbolMap, sym);
      var fromId := Lookup(symbolMap, KeyOf(sym));
      if fromId.Some? {
        var callerEdges := CallerEdges(input, symbolMap, fromId.value, sym.calls);
        edges := edges + callerEdges;
      } else {
        assert SymbolEdges(input, symbolMap, sym) == [];
        assert edges + [] == edges;
      }
      s := s + 1;
    }
  }

  /** `_build_call_graph`: number the inputs, fill the key table, then scan every call of every input. */
  method BuildCallGraph(input: seq<SymbolWithCalls>) returns (graph: CallGraph)
    ensures |graph.symbols| == |input|
    ensures forall i :: 0 <= i < |input| ==>
              graph.symbols[i] == GraphSymbol(i + 1, input[i].name, input[i].filePath, input[i].kind)
    ensures graph.edges == EdgesOf(input)
  {
    var symbols, symbolMap := NumberSymbols(input);
    var edges := CollectEdges(input, symbolMap);
    graph := CallGraph(symbols, edges);
  }

  /** The scan finds a target exactly when some input is eligible, and then it is the first eligible one. */
  lemma {:induction false} FirstTargetIsFirst(input: seq<SymbolWithCalls>, ids: map<Key, int>, fromId: int, call: string, j: nat)
    requires j <= |input|
    ensures FirstTarget(input, ids, fromId, call, j).None? <==>
              forall k :: j <= k < |input| ==> !Eligible(input, ids, fromId, call, k)
    ensures FirstTarget(input, ids, fromId, call, j).Some? ==>
              exists k :: && j <= k < |input| && Eligible(input, ids, fromId, call, k)
                          && FirstTarget(input, ids, fromId, call, j) == Lookup(ids, KeyOf(input[k]))
                          && forall k' :: j <= k' < k ==> !Eligible(input, ids, fromId, call, k')
    decreases |input| - j
  {
    if j < |input| && !Eligible(input, ids, fromId, call, j) {
      FirstTargetIsFirst(input, ids, fromId, call, j + 1);
    }
  }

  lemma {:induction false} EdgesUpToSound(input: seq<SymbolWithCalls>, n: nat, e: Edge)
    requires n <= |input|
    requires e in EdgesUpTo(input, SymbolMap(input), n)
    ensures exists i, k, c :: && 0 <= i < |input| && 0 <= k < |input| && c in input[i].calls
                               && Lookup(SymbolMap(input), KeyOf(input[i])) == Some(e.from)
                               && Eligible(input, SymbolMap(input), e.from, c, k)
                               && Lookup(SymbolMap(input), KeyOf(input[k])) == Some(e.to)
  {
    var ids := SymbolMap(input);
    if e !in EdgesUpTo(input, ids, n - 1) {
      var sym := input[n - 1];
      assert e in SymbolEdges(input, ids, sym);
    } else {
      EdgesUpToSound(input, n - 1, e);
    }
  }

  /** The endpoint facts for one edge, from the caller entry `i`, the target entry `k` and the call `c` that produced it. */
  lemma EndpointsOfWitness(input: seq<SymbolWithCalls>, e: Edge, i: int, k: int, c: string)
    requires 0 <= i < |input| && 0 <= k < |input| && c in input[i].calls
    requires Lookup(SymbolMap(input), KeyOf(input[i])) == Some(e.from)
    requires Eligible(input, SymbolMap(input), e.from, c, k)
    requires Lookup(SymbolMap(input), KeyOf(input[k])) == Some(e.to)
    ensures 1 <= e.from <= |input| && 1 <= e.to <= |input|
    ensures e.from != e.to
    ensures IsLastOccurrence(input, e.from - 1) && IsLastOccurrence(input, e.to - 1)
    ensures KeyOf(input[i]) == KeyOf(input[e.from - 1]) && IsCallMatch(c, input[e.to - 1].name)
  {
    assert 1 <= e.from <= |input| && KeyOf(input[e.from - 1]) == KeyOf(input[i]) && IsLastOccurrence(input, e.from - 1) by {
      SymbolMapLast(input, KeyOf(input[i]));
    }
    assert 1 <= e.to <= |input| && KeyOf(input[e.to - 1]) == KeyOf(input[k]) && IsLastOccurrence(input, e.to - 1) by {
      SymbolMapLast(input, KeyOf(input[k]));
    }
    assert input[e.to - 1].name == input[k].name;
  }

  /**
   * Every edge joins two emitted ids, never a symbol to itself; both ends are the last occurrence
   * of their key; and the target's name answers one of the caller's call names.
   */
  lemma EdgeEndpoints(input: seq<SymbolWithCalls>, e: Edge)
    requires e in EdgesOf(input)
    ensures 1 <= e.from <= |input| && 1 <= e.to <= |input|
    ensures e.from != e.to
    ensures IsLastOccurrence(input, e.from - 1) && IsLastOccurrence(input, e.to - 1)
    ensures exists i, c :: && 0 <= i < |input| && KeyOf(input[i]) == KeyOf(input[e.from - 1])
                           && c in input[i].calls && IsCallMatch(c, input[e.to - 1].name)
  {
    EdgesUpToSound(input, |input|, e);
    var i, k, c :| && 0 <= i < |input| && 0 <= k < |input| && c in input[i].calls
                   && Lookup(SymbolMap(input), KeyOf(input[i])) == Some(e.from)
                   && Eligible(input, SymbolMap(input), e.from, c, k)
                   && Lookup(SymbolMap(input), KeyOf(input[k])) == Some(e.to);
    EndpointsOfWitness(input, e, i, k, c);
  }

  /** For each caller and call name: the edge, if any, goes to the first eligible target in input order. */
  lemma {:induction false} CallEdgesFollowFirstTarget(input: seq<SymbolWithCalls>, ids: map<Key, int>, fromId: int, calls: seq<string>)
    ensures CallEdges(input, ids, fromId, calls) == Concat(TargetEdges(input, ids, fromId, calls))
  {
    if calls != [] {
      var init := calls[..|calls| - 1];
      var parts := TargetEdges(input, ids, fromId, calls);
      CallEdgesFollowFirstTarget(input, ids, fromId, init);
      assert parts[..|parts| - 1] == TargetEdges(input, ids, fromId, init);
    }
  }

  /** The edge for one call name: one edge to the first eligible target, or none. */
  function TargetEdge(input: seq<SymbolWithCalls>, ids: map<Key, int>, fromId: int, call: string): seq<Edge> {
    match FirstTarget(input, ids, fromId, call, 0)
    case None => []
    case Some(t) => [Edge(fromId, t)]
  }

  /** The edge lists of the call names, one per name, in call order. */
  function TargetEdges(input: seq<SymbolWithCalls>, ids: map<Key, int>, fromId: int, calls: seq<string>): (r: seq<seq<Edge>>)
    ensures |r| == |calls|
    ensures forall c :: 0 <= c < |calls| ==> r[c] == TargetEdge(input, ids, fromId, calls[c])
  {
    if calls == [] then []
    else TargetEdges(input, ids, fromId, calls[..|calls| - 1]) + [TargetEdge(input, ids, fromId, calls[|calls| - 1])]
  }

  /** The number of raw call names of the first `n` entries. */
  function CallsUpTo(input: seq<SymbolWithCalls>, n: nat): nat
    requires n <= |input|
  {
    if n == 0 then 0 else CallsUpTo(input, n - 1) + |input[n - 1].calls|
  }

  /** At most one edge per call name. */
  lemma EdgeCountBound(input: seq<SymbolWithCalls>)
    ensures |EdgesOf(input)| <= CallsUpTo(input, |input|)
  {
    EdgesUpToBound(input, SymbolMap(input), |input|);
  }

  lemma {:induction false} EdgesUpToBound(input: seq<SymbolWithCalls>, ids: map<Key, int>, n: nat)
    requires n <= |input|
    ensures |EdgesUpTo(input, ids, n)| <= CallsUpTo(input, n)
  {
    if n > 0 {
      EdgesUpToBound(input, ids, n - 1);
    }
  }

  /**
   * The first match in input order wins: when a caller's one call name answers two symbols (say a
   * call "save" and the symbols `save` and `Account.save`), the edge goes to whichever is listed
   * first, so listing them the other way round changes the graph.
   */
  lemma FirstMatchWins(caller: SymbolWithCalls, first: SymbolWithCalls, second: SymbolWithCalls, call: string)
    requires caller.calls == [call] && first.calls == [] && second.calls == []
    requires KeyOf(caller) != KeyOf(first) && KeyOf(caller) != KeyOf(second) && KeyOf(first) != KeyOf(second)
    requires IsCallMatch(call, first.name) && IsCallMatch(call, second.name)
    ensures EdgesOf([caller, first, second]) == [Edge(1, 2)]
  {
    var input := [caller, first, second];
    assert input[..2] == [caller, first] && [caller, first][..1] == [caller] && [caller][..0] == [];
    assert SymbolMap([caller]) == map[KeyOf(caller) := 1];
    assert SymbolMap([caller, first]) == map[KeyOf(caller) := 1, KeyOf(first) := 2];
    var ids := SymbolMap(input);
    assert ids == map[KeyOf(caller) := 1, KeyOf(first) := 2, KeyOf(second) := 3];
    assert !Eligible(input, ids, 1, call, 0) && Eligible(input, ids, 1, call, 1);
    assert FirstTarget(input, ids, 1, call, 0) == Some(2);
    assert [call][..0] == [];
    assert EdgesUpTo(input, ids, 1) == [Edge(1, 2)];
    assert SymbolEdges(input, ids, first) == [] && SymbolEdges(input, ids, second) == [];
    assert EdgesUpTo(input, ids, 3) == EdgesUpTo(input, ids, 1);
  }

  // ---------------------------------------------------------------------------------------------
  // Walking the project

  /** Directories whose whole subtree the walk prunes. */
  const ExcludedDirs: set<string> := {".git", "__pycache__", "node_modules", ".venv", ".pytest_cache"}

  /** A file of the project tree: the directories from the project root down to it, and its name. */
  datatype WalkedFile = WalkedFile(dirs: seq<string>, fileName: string)

  /** The parser's language argument: "python" or "javascript". */
  datatype Language = Python | JavaScript

  /** The walk reaches a file only when no directory on its path is excluded. */
  predicate IsWalked(f: WalkedFile) {
    forall i :: 0 <= i < |f.dirs| ==> f.dirs[i] !in ExcludedDirs
  }

  /** Only Python and JavaScript sources are indexed. */
  predicate IsSourceFile(fileName: string) {
    EndsWith(fileName, ".py") || EndsWith(fileName, ".js")
  }

  function LanguageOf(fileName: string): (l: Language)
    ensures l == Python <==> EndsWith(fileName, ".py")
  {
    if EndsWith(fileName, ".py") then Python else JavaScript
  }

  /** The path relative to the project root, components joined by '/'. */
  function RelPath(f: WalkedFile): string {
    JoinPath(f.dirs + [f.fileName])
  }

  function JoinPath(parts: seq<string>): string {
    if parts == [] then ""
    else if |parts| == 1 then parts[0]
    else JoinPath(parts[..|parts| - 1]) + "/" + parts[|parts| - 1]
  }

  /** A symbol as the parser reports it; every key is read with a default. */
  datatype RawSymbol = RawSymbol(
    name: Option<string>,
    kind: Option<string>,
    lineStart: Option<int>,
    lineEnd: Option<int>,
    code: Option<string>,
    calls: Option<seq<string>>)

  /** The symbol extractor, an oracle: relative path and language to the file's symbols. */
  type Extractor = (string, Language) -> seq<RawSymbol>

  /** The embedding provider, an oracle: the text's vector, or None when the model raises. */
  type Embedder = string -> Option<Vector>

  /** The text that is embedded for one symbol. */
  function EmbeddingText(relPath: string, s: RawSymbol): string {
    "File: " + relPath + "\n" + "Symbol: " + s.name.GetOr("unknown") + "\n" + "Type: " + s.kind.GetOr("unknown") + "\n"
      + "Code:\n" + s.code.GetOr("")
  }

  /** The metadata record stored beside the symbol's vector. */
  function MetadataOf(relPath: string, s: RawSymbol): MetadataRecord {
    MetadataRecord(Some(relPath), Some(s.name.GetOr("")), Some(s.kind.GetOr("")),
                   Some(s.lineStart.GetOr(0)), Some(s.lineEnd.GetOr(0)), Some(s.code.GetOr("")))
  }

  /** The call-graph input for one symbol. */
  function WithCallsOf(relPath: string, s: RawSymbol): SymbolWithCalls {
    SymbolWithCalls(s.name.GetOr(""), relPath, s.kind.GetOr(""), s.calls.GetOr([]))
  }

  /** The call-graph inputs of one file, in symbol order. */
  function WithCallsList(relPath: string, symbols: seq<RawSymbol>): seq<SymbolWithCalls> {
    seq(|symbols|, i requires 0 <= i < |symbols| => WithCallsOf(relPath, symbols[i]))
  }

  /** What embedding one file's symbols adds to the batch, and whether every symbol got its vector. */
  datatype FileBatch = FileBatch(vectors: seq<Vector>, metadata: seq<MetadataRecord>, complete: bool)

  /** `_index_file`'s loop: symbols in order, one vector and one record each, stopping at the first provider failure. */
  function EmbedSymbols(relPath: string, symbols: seq<RawSymbol>, embed: Embedder): (b: FileBatch)
    ensures |b.vectors| == |b.metadata| <= |symbols|
    ensures b.complete ==> |b.vectors| == |symbols|
    ensures forall i :: 0 <= i < |b.metadata| ==> b.metadata[i] == MetadataOf(relPath, symbols[i])
    ensures forall i :: 0 <= i < |b.vectors| ==> embed(EmbeddingText(relPath, symbols[i])) == Some(b.vectors[i])
  {
    if symbols == [] then FileBatch([], [], true)
    else
      var n := |symbols| - 1;
      var b := EmbedSymbols(relPath, symbols[..n], embed);
      if !b.complete then b
      else
        match embed(EmbeddingText(relPath, symbols[n]))
        case None => b.(complete := false)
        case Some(v) => FileBatch(b.vectors + [v], b.metadata + [MetadataOf(relPath, symbols[n])], true)
  }

  /** A batch stops only at a symbol whose embedding failed. */
  lemma {:induction false} IncompleteBatchStopsAtFailure(relPath: string, symbols: seq<RawSymbol>, embed: Embedder)
    requires !EmbedSymbols(relPath, symbols, embed).complete
    ensures var n := |EmbedSymbols(relPath, symbols, embed).vectors|;
            n < |symbols| && embed(EmbeddingText(relPath, symbols[n])).None?
  {
    var n := |symbols| - 1;
    if !EmbedSymbols(relPath, symbols[..n], embed).complete {
      IncompleteBatchStopsAtFailure(relPath, symbols[..n], embed);
      assert symbols[..n][|EmbedSymbols(relPath, symbols[..n], embed).vectors|]
             == symbols[|EmbedSymbols(relPath, symbols[..n], embed).vectors|];
    }
  }

  /** Once a prefix of the file has failed, the whole file's batch is that prefix's batch. */
  lemma {:induction false} IncompleteBatchStays(relPath: string, symbols: seq<RawSymbol>, embed: Embedder, m: nat)
    requires m <= |symbols|
    requires !EmbedSymbols(relPath, symbols[..m], embed).complete
    ensures EmbedSymbols(relPath, symbols, embed) == EmbedSymbols(relPath, symbols[..m], embed)
    decreases |symbols| - m
  {
    if m == |symbols| {
      assert symbols[..m] == symbols;
    } else {
      assert symbols[..m + 1][..m] == symbols[..m];
      IncompleteBatchStays(relPath, symbols, embed, m + 1);
    }
  }

  /** One more symbol after a complete prefix: its vector and record are added, or the batch stops there. */
  lemma EmbedSymbolsStep(relPath: string, symbols: seq<RawSymbol>, embed: Embedder, i: nat)
    requires i < |symbols|
    requires EmbedSymbols(relPath, symbols[..i], embed).complete
    ensures var b := EmbedSymbols(relPath, symbols[..i], embed);
            match embed(EmbeddingText(relPath, symbols[i]))
            case None => EmbedSymbols(relPath, symbols[..i + 1], embed) == b.(complete := false)
            case Some(v) => EmbedSymbols(relPath, symbols[..i + 1], embed)
                              == FileBatch(b.vectors + [v], b.metadata + [MetadataOf(relPath, symbols[i])], true)
  {
    assert symbols[..i + 1][..i] == symbols[..i];
  }

  /**
   * `_index_file`: extract the file's symbols, append one vector and one record per symbol to the
   * caller's batch. `ok` is false when the provider raised part-way; what was appended before stays.
   */
  method IndexFile(relPath: string, language: Language, extract: Extractor, embed: Embedder,
                   vectors0: seq<Vector>, metadata0: seq<MetadataRecord>)
    returns (symbols: seq<RawSymbol>, vectors: seq<Vector>, metadata: seq<MetadataRecord>, ok: bool)
    ensures symbols == extract(relPath, language)
    ensures var b := EmbedSymbols(relPath, symbols, embed);
            vectors == vectors0 + b.vectors && metadata == metadata0 + b.metadata && ok == b.complete
  {
    symbols := extract(relPath, language);
    vectors, metadata := vectors0, metadata0;
    var i := 0;
    while i < |symbols|
      invariant 0 <= i <= |symbols|
      invariant var b := EmbedSymbols(relPath, symbols[..i], embed);
                vectors == vectors0 + b.vectors && metadata == metadata0 + b.metadata && b.complete
    {
      var embedding := embed(EmbeddingText(relPath, symbols[i]));
      EmbedSymbolsStep(relPath, symbols, embed, i);
      if embedding.None? {
        IncompleteBatchStays(relPath, symbols, embed, i + 1);
        return symbols, vectors, metadata, false;
      }
      ghost var b := EmbedSymbols(relPath, symbols[..i], embed);
      AppendAssoc(vectors0, b.vectors, [embedding.value]);
      AppendAssoc(metadata0, b.metadata, [MetadataOf(relPath, symbols[i])]);
      vectors := vectors + [embedding.value];
      metadata := metadata + [MetadataOf(relPath, symbols[i])];
      i := i + 1;
    }
    assert symbols[..i] == symbols;
    ok := true;
  }

  /** One file's entry in the result: its relative path and its symbol count. */
  datatype FileRecord = FileRecord(path: string, symbols: nat)

  /** Everything `index_project` accumulates while walking. */
  datatype Progress = Progress(
    withCalls: seq<SymbolWithCalls>,
    records: seq<FileRecord>,
    total: nat,
    vectors: seq<Vector>,
    metadata: seq<MetadataRecord>)

  /** One file of the walk: skipped unless walked and a source; on a provider failure only its partial batch is kept. */
  function Step(p: Progress, f: WalkedFile, extract: Extractor, embed: Embedder): Progress {
    if !IsWalked(f) || !IsSourceFile(f.fileName) then p
    else
      var rel := RelPath(f);
      var symbols := extract(rel, LanguageOf(f.fileName));
      var b := EmbedSymbols(rel, symbols, embed);
      if !b.complete then p.(vectors := p.vectors + b.vectors, metadata := p.metadata + b.metadata)
      else
        Progress(p.withCalls + WithCallsList(rel, symbols),
                 p.records + [FileRecord(rel, |symbols|)],
                 p.total + |symbols|,
                 p.vectors + b.vectors,
                 p.metadata + b.metadata)
  }

  /** The whole walk, files in walk order. */
  function Walk(files: seq<WalkedFile>, extract: Extractor, embed: Embedder): Progress {
    if files == [] then Progress([], [], 0, [], [])
    else Step(Walk(files[..|files| - 1], extract, embed), files[|files| - 1], extract, embed)
  }

  /** The summed symbol counts of the file entries. */
  function SumSymbols(records: seq<FileRecord>): nat {
    if records == [] then 0 else SumSymbols(records[..|records| - 1]) + records[|records| - 1].symbols
  }

  /**
   * Invariants of the walk: vectors and metadata stay in lockstep; `symbols_extracted` is both the
   * graph input's length and the sum of the file entries; there is at most one entry per file.
   */
  lemma {:induction false} WalkCounts(files: seq<WalkedFile>, extract: Extractor, embed: Embedder)
    ensures var p := Walk(files, extract, embed);
            && |p.vectors| == |p.metadata|
            && p.total == |p.withCalls| == SumSymbols(p.records)
            && |p.records| <= |files|
  {
    if files != [] {
      var init := files[..|files| - 1];
      WalkCounts(init, extract, embed);
      var p := Walk(init, extract, embed);
      var q := Step(p, files[|files| - 1], extract, embed);
      if q.records != p.records {
        assert q.records[..|q.records| - 1] == p.records;
      }
    }
  }

  /** Every file entry names a walked Python or JavaScript file. */
  lemma {:induction false} WalkRecordsOnlySources(files: seq<WalkedFile>, extract: Extractor, embed: Embedder)
    ensures forall r :: r in Walk(files, extract, embed).records ==>
              exists f :: f in files && IsWalked(f) && IsSourceFile(f.fileName) && RelPath(f) == r.path
  {
    if files != [] {
      var init := files[..|files| - 1];
      WalkRecordsOnlySources(init, extract, embed);
      forall r | r in Walk(files, extract, embed).records
        ensures exists f :: f in files && IsWalked(f) && IsSourceFile(f.fileName) && RelPath(f) == r.path
      {
        if r in Walk(init, extract, embed).records {
          var f :| f in init && IsWalked(f) && IsSourceFile(f.fileName) && RelPath(f) == r.path;
          assert f in files;
        } else {
          assert files[|files| - 1] in files;
        }
      }
    }
  }

  /**
   * A file whose embedding fails part-way gets no entry and no graph symbols; the walk goes on, and
   * the vectors it did get stay in the batch.
   */
  lemma FailedFileSkipped(p: Progress, f: WalkedFile, extract: Extractor, embed: Embedder)
    requires IsWalked(f) && IsSourceFile(f.fileName)
    requires !EmbedSymbols(RelPath(f), extract(RelPath(f), LanguageOf(f.fileName)), embed).complete
    ensures var q := Step(p, f, extract, embed);
            var b := EmbedSymbols(RelPath(f), extract(RelPath(f), LanguageOf(f.fileName)), embed);
            && q.records == p.records && q.withCalls == p.withCalls && q.total == p.total
            && q.vectors == p.vectors + b.vectors && |b.vectors| < |extract(RelPath(f), LanguageOf(f.fileName))|
  {
    IncompleteBatchStopsAtFailure(RelPath(f), extract(RelPath(f), LanguageOf(f.fileName)), embed);
  }

  /** Metadata record i and graph input i describe the same symbol: name, path and kind agree. */
  predicate MetadataMatchesGraph(p: Progress) {
    && |p.metadata| == |p.withCalls|
    && forall i :: 0 <= i < |p.metadata| ==>
         p.metadata[i].name == Some(p.withCalls[i].name) && p.metadata[i].filePath == Some(p.withCalls[i].filePath)
         && p.metadata[i].kind == Some(p.withCalls[i].kind)
  }

  /** A file whose every symbol was embedded adds matching metadata records and graph inputs. */
  lemma StepKeepsMetadataMatch(p: Progress, f: WalkedFile, extract: Extractor, embed: Embedder)
    requires MetadataMatchesGraph(p)
    requires IsWalked(f) && IsSourceFile(f.fileName) ==>
               EmbedSymbols(RelPath(f), extract(RelPath(f), LanguageOf(f.fileName)), embed).complete
    ensures MetadataMatchesGraph(Step(p, f, extract, embed))
  {
    if IsWalked(f) && IsSourceFile(f.fileName) {
      var rel := RelPath(f);
      var symbols := extract(rel, LanguageOf(f.fileName));
      var b := EmbedSymbols(rel, symbols, embed);
      var q := Step(p, f, extract, embed);
      assert q.metadata == p.metadata + b.metadata && q.withCalls == p.withCalls + WithCallsList(rel, symbols);
      forall i | |p.metadata| <= i < |q.metadata|
        ensures q.metadata[i].name == Some(q.withCalls[i].name) && q.metadata[i].filePath == Some(q.withCalls[i].filePath)
                && q.metadata[i].kind == Some(q.withCalls[i].kind)
      {
        var j := i - |p.metadata|;
        assert q.metadata[i] == b.metadata[j] == MetadataOf(rel, symbols[j]);
        assert q.withCalls[i] == WithCallsList(rel, symbols)[j] == WithCallsOf(rel, symbols[j]);
      }
    }
  }

  /** When no provider call fails, metadata record i and graph input i describe the same symbol. */
  lemma {:induction false} WalkMetadataMatchesGraph(files: seq<WalkedFile>, extract: Extractor, embed: Embedder)
    requires forall f :: f in files && IsWalked(f) && IsSourceFile(f.fileName) ==>
               EmbedSymbols(RelPath(f), extract(RelPath(f), LanguageOf(f.fileName)), embed).complete
    ensures var p := Walk(files, extract, embed);
            && |p.metadata| == |p.withCalls|
            && forall i :: 0 <= i < |p.metadata| ==>
                 p.metadata[i].name == Some(p.withCalls[i].name) && p.metadata[i].filePath == Some(p.withCalls[i].filePath)
                 && p.metadata[i].kind == Some(p.withCalls[i].kind)
  {
    if files != [] {
      var init := files[..|files| - 1];
      assert forall f :: f in init ==> f in files;
      WalkMetadataMatchesGraph(init, extract, embed);
      assert files[|files| - 1] in files;
      StepKeepsMetadataMatch(Walk(init, extract, embed), files[|files| - 1], extract, embed);
    }
  }

  /** `index_project`'s result. */
  datatype IndexSummary = IndexSummary(fileCount: nat, symbolsExtracted: nat, files: seq<FileRecord>, graphSymbols: nat, graphEdges: nat)

  /** One more symbol's graph input extends the list by exactly that entry. */
  lemma WithCallsListStep(relPath: string, symbols: seq<RawSymbol>, j: nat)
    requires j < |symbols|
    ensures WithCallsList(relPath, symbols[..j + 1]) == WithCallsList(relPath, symbols[..j]) + [WithCallsOf(relPath, symbols[j])]
  {
  }

  /** The loop that records a file's symbols, with their calls, as graph inputs, in symbol order. */
  method AppendWithCalls(withCalls0: seq<SymbolWithCalls>, relPath: string, symbols: seq<RawSymbol>)
    returns (withCalls: seq<SymbolWithCalls>)
    ensures withCalls == withCalls0 + WithCallsList(relPath, symbols)
  {
    withCalls := withCalls0;
    var j := 0;
    while j < |symbols|
      invariant 0 <= j <= |symbols|
      invariant withCalls == withCalls0 + WithCallsList(relPath, symbols[..j])
    {
      WithCallsListStep(relPath, symbols, j);
      AppendAssoc(withCalls0, WithCallsList(relPath, symbols[..j]), [WithCallsOf(relPath, symbols[j])]);
      withCalls := withCalls + [WithCallsOf(relPath, symbols[j])];
      j := j + 1;
    }
    assert symbols[..j] == symbols;
  }

  /** The body of the walk loop for one file, which `_index_file` serves. */
  method IndexOne(p: Progress, f: WalkedFile, extract: Extractor, embed: Embedder) returns (q: Progress)
    ensures q == Step(p, f, extract, embed)
  {
    q := p;
    if IsWalked(f) && IsSourceFile(f.fileName) {
      var rel := RelPath(f);
      var symbols, vectors, metadata, ok := IndexFile(rel, LanguageOf(f.fileName), extract, embed, p.vectors, p.metadata);
      q := q.(vectors := vectors, metadata := metadata);
      if ok {
        var withCalls := AppendWithCalls(p.withCalls, rel, symbols);
        q := Progress(withCalls, p.records + [FileRecord(rel, |symbols|)], p.total + |symbols|, vectors, metadata);
      }
    }
  }

  /** The walk loop of `index_project`, files in walk order. */
  method CollectFiles(files: seq<WalkedFile>, extract: Extractor, embed: Embedder) returns (p: Progress)
    ensures p == Walk(files, extract, embed)
  {
    p := Progress([], [], 0, [], []);
    var n := 0;
    while n < |files|
      invariant 0 <= n <= |files|
      invariant p == Walk(files[..n], extract, embed)
    {
      assert files[..n + 1][..n] == files[..n];
      p := IndexOne(p, files[n], extract, embed);
      n := n + 1;
    }
    assert files[..n] == files;
  }

  /**
   * `index_project`: walk, build and save the call graph (a failed save is only logged, so `graph`
   * is what is written), then append the whole batch to the vector store when it is not empty; a
   * store failure propagates.
   */
  method IndexProject(store: VectorStore, projectId: int, files: seq<WalkedFile>, extract: Extractor, embed: Embedder,
                      metadataWrite: WriteOutcome, indexWrite: WriteOutcome)
    returns (r: Result<IndexSummary, StoreError>, graph: CallGraph)
    modifies store
    ensures var p := Walk(files, extract, embed);
            var key := IntToString(projectId);
            var o := AppendBatch(old(Lookup(store.indexFiles, key)), old(Lookup(store.metadataFiles, key)),
                                 p.vectors, p.metadata, metadataWrite, indexWrite);
            && graph == CallGraphOf(p.withCalls)
            && (p.vectors == [] ==> store.indexFiles == old(store.indexFiles) && store.metadataFiles == old(store.metadataFiles))
            && (p.vectors != [] ==> store.indexFiles == Store(old(store.indexFiles), key, o.indexFile)
                                    && store.metadataFiles == Store(old(store.metadataFiles), key, o.metadataFile))
            && (p.vectors != [] && o.result.Fail? ==> r == Err(o.result.error))
            && ((p.vectors == [] || o.result.Pass?) ==>
                  r == Ok(IndexSummary(|p.records|, p.total, p.records, |p.withCalls|, |EdgesOf(p.withCalls)|)))
    ensures Walk(files, extract, embed).vectors == [] ==> store.locks == old(store.locks)
    ensures Walk(files, extract, embed).vectors != [] ==>
              && IntToString(projectId) in store.locks
              && forall k :: k in old(store.locks) ==> k in store.locks && store.locks[k] == old(store.locks)[k]
  {
    var p := CollectFiles(files, extract, embed);
    var built := BuildCallGraph(p.withCalls);
    graph := CallGraph(built.symbols, built.edges);
    assert built.symbols == NumberedSymbols(p.withCalls);
    if p.vectors != [] {
      WalkCounts(files, extract, embed);
      var stored := store.AddEmbeddings(IntToString(projectId), p.vectors, p.metadata, metadataWrite, indexWrite);
      if stored.Fail? {
        return Err(stored.error), graph;
      }
    }
    r := Ok(IndexSummary(|p.records|, p.total, p.records, |graph.symbols|, |graph.edges|));
  }

  /** Indexing never hands the store vectors and metadata of different lengths. */
  lemma IndexingNeverMismatches(files: seq<WalkedFile>, extract: Extractor, embed: Embedder,
                                indexFile: Option<IndexFile>, metadataFile: Option<MetadataFile>, metadataWrite: WriteOutcome, indexWrite: WriteOutcome)
    ensures var p := Walk(files, extract, embed);
            AppendBatch(indexFile, metadataFile, p.vectors, p.metadata, metadataWrite, indexWrite).result != Fail(LengthMismatch)
  {
    WalkCounts(files, extract, embed);
  }
}
