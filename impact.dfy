/**
 * Change-impact analysis over the persisted call graph: the target's transitive callers (the
 * symbols a change may break), its direct callees, a three-bucket risk level and the prompt
 * that asks the language model for a narrative.
 */
module Impact {
  import opened Common
  import opened Graph

  /** The risk level reported as "low", "medium" or "high". */
  datatype Risk = Low | Medium | High

  datatype ImpactResult = ImpactResult(
    symbol: GraphSymbol,
    affectedSymbols: seq<GraphSymbol>,
    affectedCount: nat,
    dependencies: seq<GraphSymbol>,
    dependencyCount: nat,
    analysis: string,
    riskLevel: Risk)

  datatype ImpactError = QueryFailed(cause: QueryError) | AnalysisFailed(provider: ProviderError)

  const ImpactSystemPrompt: string :=
    "You are a code architecture analyst. Analyze the potential impact of changing a code symbol. "
    + "Consider breaking changes, compatibility issues, test requirements, and refactoring needs. "
    + "Be concise but thorough. Structure your response with clear sections."

  // ---------------------------------------------------------------------------------------------
  // Symbol lookup

  /** Position `i` holds the first symbol with this name and file path. */
  predicate FirstMatch(symbols: seq<GraphSymbol>, name: string, filePath: string, i: int) {
    && 0 <= i < |symbols| && Names(symbols[i], name, filePath)
    && forall j :: 0 <= j < i ==> !Names(symbols[j], name, filePath)
  }

  /** `_find_symbol`: the first symbol with that name and file path, or SymbolNotFound. */
  method FindSymbol(symbols: seq<GraphSymbol>, name: string, filePath: string)
    returns (r: Result<GraphSymbol, QueryError>)
    ensures r.Ok? ==> exists i :: FirstMatch(symbols, name, filePath, i) && symbols[i] == r.value
    ensures r.Err? ==> r.error == SymbolNotFound && forall s :: s in symbols ==> !Names(s, name, filePath)
  {
    var i := 0;
    while i < |symbols|
      invariant 0 <= i <= |symbols|
      invariant forall j :: 0 <= j < i ==> !Names(symbols[j], name, filePath)
    {
      if symbols[i].name == name && symbols[i].filePath == filePath {
        return Ok(symbols[i]);
      }
      i := i + 1;
    }
    return Err(SymbolNotFound);
  }

  // ---------------------------------------------------------------------------------------------
  // Transitive callers

  /** `p` is a walk of at least one call edge. */
  ghost predicate IsCallPath(edges: seq<Edge>, p: seq<int>) {
    |p| >= 2 && forall i :: 0 <= i < |p| - 1 ==> Edge(p[i], p[i + 1]) in edges
  }

  /** `x` reaches `t` through one or more call edges. */
  ghost predicate Reaches(edges: seq<Edge>, x: int, t: int) {
    exists p :: IsCallPath(edges, p) && p[0] == x && p[|p| - 1] == t
  }

  /** The ids that occur as a caller in some edge. */
  function Froms(edges: seq<Edge>): (r: set<int>)
    ensures forall e :: e in edges ==> e.from in r
  {
    set e | e in edges :: e.from
  }

  /** The ids that reach `t` through one or more call edges, `t` excluded. */
  ghost function Reachers(edges: seq<Edge>, t: int): set<int> {
    set x | x in Froms(edges) && x != t && Reaches(edges, x, t)
  }

  /** One more call in front of a path to `t` is a path to `t`. */
  lemma {:induction false} ReachesStep(edges: seq<Edge>, x: int, y: int, t: int)
    requires Edge(x, y) in edges
    requires y == t || Reaches(edges, y, t)
    ensures Reaches(edges, x, t)
  {
    if y == t {
      var p := [x, t];
      assert IsCallPath(edges, p);
    } else {
      var p :| IsCallPath(edges, p) && p[0] == y && p[|p| - 1] == t;
      var q := [x] + p;
      forall i | 0 <= i < |q| - 1
        ensures Edge(q[i], q[i + 1]) in edges
      {
        if i > 0 {
          assert q[i] == p[i - 1] && q[i + 1] == p[i];
        }
      }
      assert IsCallPath(edges, q) && q[0] == x && q[|q| - 1] == t;
    }
  }

  /** A set that holds `t` and every caller of its members holds everything that reaches `t`. */
  lemma {:induction false} ClosedSetHoldsReachers(edges: seq<Edge>, s: set<int>, x: int, t: int)
    requires t in s
    requires forall e :: e in edges && e.to in s ==> e.from in s
    requires Reaches(edges, x, t)
    ensures x in s
  {
    var p :| IsCallPath(edges, p) && p[0] == x && p[|p| - 1] == t;
    var i := |p| - 1;
    while i > 0
      invariant 0 <= i < |p|
      invariant p[i] in s
    {
      assert Edge(p[i - 1], p[i]) in edges;
      i := i - 1;
    }
  }

  /** Every transitive caller starts an edge: it is the caller in the first edge of its path. */
  lemma ReacherIsCaller(edges: seq<Edge>, x: int, t: int)
    requires Reaches(edges, x, t)
    ensures x in Froms(edges)
  {
    var p :| IsCallPath(edges, p) && p[0] == x && p[|p| - 1] == t;
    assert Edge(p[0], p[1]) in edges;
  }

  /** `reverse_edges` built from the first `n` edges: callee id to the callers' ids, in edge order. */
  ghost predicate IsReverseIndex(rev: map<int, seq<int>>, edges: seq<Edge>) {
    (forall y :: y in rev ==> rev[y] == Callers(edges, y))
    && (forall y :: y !in rev ==> Callers(edges, y) == [])
  }

  /** Recording one more edge under its callee keeps the index exact. */
  lemma ReverseIndexStep(rev: map<int, seq<int>>, edges: seq<Edge>, e: Edge)
    requires IsReverseIndex(rev, edges)
    ensures IsReverseIndex(rev[e.to := (if e.to in rev then rev[e.to] else []) + [e.from]], edges + [e])
  {
    assert (edges + [e])[..|edges|] == edges;
  }

  method BuildReverseEdges(edges: seq<Edge>) returns (rev: map<int, seq<int>>)
    ensures IsReverseIndex(rev, edges)
  {
    rev := map[];
    var i := 0;
    while i < |edges|
      invariant 0 <= i <= |edges|
      invariant IsReverseIndex(rev, edges[..i])
    {
      var e := edges[i];
      assert edges[..i + 1] == edges[..i] + [e];
      ReverseIndexStep(rev, edges[..i], e);
      if e.to !in rev {
        rev := rev[e.to := []];
      }
      rev := rev[e.to := rev[e.to] + [e.from]];
      i := i + 1;
    }
    assert edges[..i] == edges;
  }

  /**
   * The inner loop of the search: every caller of the node just visited that has not been visited
   * yet becomes a known caller and is scheduled for a visit.
   */
  method ScheduleCallers(direct: seq<int>, visited: set<int>, callers0: set<int>, toVisit0: set<int>)
    returns (callers: set<int>, toVisit: set<int>)
    ensures callers == callers0 + (set x | x in direct && x !in visited)
    ensures toVisit == toVisit0 + (set x | x in direct && x !in visited)
  {
    callers, toVisit := callers0, toVisit0;
    var k := 0;
    while k < |direct|
      invariant 0 <= k <= |direct|
      invariant callers == callers0 + (set x | x in direct[..k] && x !in visited)
      invariant toVisit == toVisit0 + (set x | x in direct[..k] && x !in visited)
    {
      assert direct[..k + 1] == direct[..k] + [direct[k]];
      var caller := direct[k];
      if caller !in visited {
        callers := callers + {caller};
        toVisit := toVisit + {caller};
      }
      k := k + 1;
    }
    assert direct[..k] == direct;
  }

  /**
   * `_get_transitive_callers`: a worklist search backwards from the target. `to_visit` is a set
   * whose `pop()` may return any element, so the choice is left open here; the result is the
   * same whichever element is taken: exactly the symbols that reach the target through at least
   * one edge, the target itself excluded even when it lies on a cycle.
   */
  method TransitiveCallers(edges: seq<Edge>, target: int) returns (callers: set<int>)
    ensures forall x :: x in callers <==> x != target && Reaches(edges, x, target)
    ensures callers <= Froms(edges)
  {
    callers := {};
    var toVisit := {target};
    var rev := BuildReverseEdges(edges);
    var visited: set<int> := {};
    ghost var universe := Froms(edges) + {target};

    while toVisit != {}
      invariant toVisit <= universe && visited <= universe
      invariant visited == {} ==> toVisit == {target} && callers == {}
      invariant visited != {} ==> target in visited
      invariant target !in callers
      invariant callers <= visited + toVisit
      invariant visited - {target} <= callers
      invariant toVisit - {target} <= callers
      invariant forall x :: x in callers ==> Reaches(edges, x, target)
      invariant forall y, x :: y in visited && x in Callers(edges, y) ==> x in visited || x in toVisit
      decreases universe - visited, toVisit
    {
      var current :| current in toVisit;
      toVisit := toVisit - {current};
      if current in visited {
        continue;
      }
      ghost var before := callers;
      visited := visited + {current};
      var direct := if current in rev then rev[current] else [];
      assert direct == Callers(edges, current);
      callers, toVisit := ScheduleCallers(direct, visited, callers, toVisit);
      forall x | x in callers
        ensures Reaches(edges, x, target)
      {
        if x !in before {
          assert Edge(x, current) in edges;
          ReachesStep(edges, x, current, target);
        }
      }
      assert forall x :: x in direct ==> x in Froms(edges);
    }

    assert target in visited;
    forall x | x != target && Reaches(edges, x, target)
      ensures x in callers
    {
      ClosedSetHoldsReachers(edges, visited, x, target);
    }
    forall x | x in callers
      ensures x in Froms(edges)
    {
      ReacherIsCaller(edges, x, target);
    }
  }

  // ---------------------------------------------------------------------------------------------
  // Risk

  /** `_assess_risk_level`: 0 to 4 is low, 5 to 14 is medium, 15 and more is high. */
  function AssessRiskLevel(affectedCount: nat, dependencyCount: nat): (r: Risk)
    ensures r == Low <==> affectedCount + dependencyCount < 5
    ensures r == Medium <==> 5 <= affectedCount + dependencyCount < 15
    ensures r == High <==> affectedCount + dependencyCount >= 15
  {
    var total := affectedCount + dependencyCount;
    if total == 0 then Low
    else if total < 5 then Low
    else if total < 15 then Medium
    else High
  }

  function Rank(r: Risk): nat {
    match r
    case Low => 0
    case Medium => 1
    case High => 2
  }

  /** More affected or dependent symbols never lower the risk. */
  lemma RiskMonotone(a: nat, d: nat, a': nat, d': nat)
    requires a + d <= a' + d'
    ensures Rank(AssessRiskLevel(a, d)) <= Rank(AssessRiskLevel(a', d'))
  {
  }

  // ---------------------------------------------------------------------------------------------
  // Prompt context

  const DependencyLimit: nat := 10
  const AffectedLimit: nat := 15

  function DependencyLine(s: GraphSymbol): string {
    "  - " + s.name + " (" + s.filePath + ")\n"
  }

  function AffectedLine(s: GraphSymbol): string {
    "  - " + s.name + " (" + s.kind + ") in " + s.filePath + "\n"
  }

  function DependencyLines(deps: seq<GraphSymbol>): (r: seq<string>)
    ensures |r| == |deps|
  {
    seq(|deps|, i requires 0 <= i < |deps| => DependencyLine(deps[i]))
  }

  function AffectedLines(affected: seq<GraphSymbol>): (r: seq<string>)
    ensures |r| == |affected|
  {
    seq(|affected|, i requires 0 <= i < |affected| => AffectedLine(affected[i]))
  }

  function MoreLine(hidden: nat): string {
    "  ... and " + NatToString(hidden) + " more\n"
  }

  /** The first `limit` lines, then a line counting the rest when there is a rest. */
  function Listing(lines: seq<string>, limit: nat): string {
    if |lines| <= limit then Concat(lines) else Concat(lines[..limit]) + MoreLine(|lines| - limit)
  }

  /** The request that opens every impact prompt. */
  const ContextOpening: string := "Analyze the impact of changing the following symbol:\n\n"

  /** The opening request and the target's three lines. */
  function ContextHeader(target: GraphSymbol): string {
    ContextOpening
    + ("Symbol: " + target.name + "\n")
    + ("Type: " + target.kind + "\n")
    + ("File: " + target.filePath + "\n\n")
  }

  function ProposedChange(description: string): string {
    if description != "" then "Proposed change: " + description + "\n\n" else ""
  }

  function DependencySection(deps: seq<GraphSymbol>): string {
    ("Direct dependencies (symbols this calls): " + NatToString(|deps|) + "\n")
    + (if deps != [] then "Dependencies:\n" + Listing(DependencyLines(deps), DependencyLimit) else "")
  }

  function AffectedSection(affected: seq<GraphSymbol>): string {
    ("\nAffected code (symbols that call this, directly or transitively): " + NatToString(|affected|) + "\n")
    + (if affected != [] then "Affected symbols:\n" + Listing(AffectedLines(affected), AffectedLimit) else "")
  }

  /** The four numbered questions that close every impact prompt. */
  const ContextFooter: string :=
    "\nProvide an analysis of:\n1. Potential breaking changes\n2. Test coverage needs\n3. Refactoring recommendations\n4. Risk assessment"

  /** The text `_build_impact_context` grows with `+=`. */
  function ImpactContext(target: GraphSymbol, affected: seq<GraphSymbol>, deps: seq<GraphSymbol>, description: string): string {
    ContextHeader(target) + ProposedChange(description) + DependencySection(deps) + AffectedSection(affected) + ContextFooter
  }

  /** Appends the first `min(|lines|, limit)` lines one at a time, then the "... and N more" line. */
  method AppendListing(context: string, lines: seq<string>, limit: nat) returns (r: string)
    ensures r == context + Listing(lines, limit)
  {
    r := context;
    var shown := Min(|lines|, limit);
    var i := 0;
    while i < shown
      invariant 0 <= i <= shown
      invariant r == context + Concat(lines[..i])
    {
      assert lines[..i + 1][..i] == lines[..i];
      AppendAssoc(context, Concat(lines[..i]), lines[i]);
      r := r + lines[i];
      i := i + 1;
    }
    if |lines| > limit {
      AppendAssoc(context, Concat(lines[..limit]), MoreLine(|lines| - limit));
      r := r + MoreLine(|lines| - limit);
    } else {
      assert lines[..i] == lines;
    }
  }

  /** The dependency part of `_build_impact_context`: the count line, then the listing when there are any. */
  method AppendDependencySection(context0: string, deps: seq<GraphSymbol>) returns (context: string)
    ensures context == context0 + DependencySection(deps)
  {
    var countLine := "Direct dependencies (symbols this calls): " + NatToString(|deps|) + "\n";
    context := context0 + countLine;
    if deps != [] {
      context := context + "Dependencies:\n";
      var listing := Listing(DependencyLines(deps), DependencyLimit);
      context := AppendListing(context, DependencyLines(deps), DependencyLimit);
      AppendAssoc(context0 + countLine, "Dependencies:\n", listing);
      AppendAssoc(context0, countLine, "Dependencies:\n" + listing);
    } else {
      assert countLine + "" == countLine;
    }
  }

  /** The affected part of `_build_impact_context`: the count line, then the listing when there are any. */
  method AppendAffectedSection(context0: string, affected: seq<GraphSymbol>) returns (context: string)
    ensures context == context0 + AffectedSection(affected)
  {
    var countLine := "\nAffected code (symbols that call this, directly or transitively): " + NatToString(|affected|) + "\n";
    context := context0 + countLine;
    if affected != [] {
      context := context + "Affected symbols:\n";
      var listing := Listing(AffectedLines(affected), AffectedLimit);
      context := AppendListing(context, AffectedLines(affected), AffectedLimit);
      AppendAssoc(context0 + countLine, "Affected symbols:\n", listing);
      AppendAssoc(context0, countLine, "Affected symbols:\n" + listing);
    } else {
      assert countLine + "" == countLine;
    }
  }

  /** `_build_impact_context`. */
  method BuildImpactContext(target: GraphSymbol, affected: seq<GraphSymbol>, deps: seq<GraphSymbol>, description: string)
    returns (context: string)
    ensures context == ImpactContext(target, affected, deps, description)
  {
    context := ContextOpening;
    context := context + ("Symbol: " + target.name + "\n");
    context := context + ("Type: " + target.kind + "\n");
    context := context + ("File: " + target.filePath + "\n\n");
    if description != "" {
      context := context + ("Proposed change: " + description + "\n\n");
    } else {
      assert context + ProposedChange(description) == context;
    }
    context := AppendDependencySection(context, deps);
    context := AppendAffectedSection(context, affected);
    context := context + ContextFooter;
  }

  /** A listing depends only on the lines it shows and on how many lines there are. */
  lemma ListingShowsOnlyLeadingLines(lines: seq<string>, lines': seq<string>, limit: nat)
    requires |lines| == |lines'|
    requires lines[..Min(|lines|, limit)] == lines'[..Min(|lines'|, limit)]
    ensures Listing(lines, limit) == Listing(lines', limit)
  {
    if |lines| <= limit {
      assert lines == lines[..|lines|] && lines' == lines'[..|lines'|];
    }
  }

  /**
   * The prompt names at most the first 10 dependencies and the first 15 affected symbols: symbols
   * past those limits change the prompt only through the counts.
   */
  lemma ContextShowsAtMostLimits(target: GraphSymbol, affected: seq<GraphSymbol>, affected': seq<GraphSymbol>,
                                 deps: seq<GraphSymbol>, deps': seq<GraphSymbol>, description: string)
    requires |affected| == |affected'| && |deps| == |deps'|
    requires affected[..Min(|affected|, AffectedLimit)] == affected'[..Min(|affected'|, AffectedLimit)]
    requires deps[..Min(|deps|, DependencyLimit)] == deps'[..Min(|deps'|, DependencyLimit)]
    ensures ImpactContext(target, affected, deps, description) == ImpactContext(target, affected', deps', description)
  {
    var n := Min(|deps|, DependencyLimit);
    assert DependencyLines(deps)[..n] == DependencyLines(deps')[..n] by {
      forall i | 0 <= i < n ensures DependencyLines(deps)[i] == DependencyLines(deps')[i] {
        assert deps[i] == deps[..n][i] && deps'[i] == deps'[..n][i];
      }
    }
    ListingShowsOnlyLeadingLines(DependencyLines(deps), DependencyLines(deps'), DependencyLimit);
    var m := Min(|affected|, AffectedLimit);
    assert AffectedLines(affected)[..m] == AffectedLines(affected')[..m] by {
      forall i | 0 <= i < m ensures AffectedLines(affected)[i] == AffectedLines(affected')[i] {
        assert affected[i] == affected[..m][i] && affected'[i] == affected'[..m][i];
      }
    }
    ListingShowsOnlyLeadingLines(AffectedLines(affected), AffectedLines(affected'), AffectedLimit);
  }

  /** Within the limit every item is listed and no "... and N more" line follows. */
  lemma ListingWithinLimit(lines: seq<string>, limit: nat)
    requires |lines| <= limit
    ensures Listing(lines, limit) == Concat(lines)
  {
  }

  /** Past the limit exactly `limit` items are listed, then the count of the rest, N = length - limit. */
  lemma ListingPastLimit(lines: seq<string>, limit: nat)
    requires |lines| > limit
    ensures Listing(lines, limit) == Concat(lines[..limit]) + ("  ... and " + NatToString(|lines| - limit) + " more\n")
    ensures DecimalValue(NatToString(|lines| - limit)) == |lines| - limit
  {
    NatToStringRoundTrip(|lines| - limit);
  }

  /**
   * The change description contributes only its own block, right after the header, and only when
   * it is non-empty: the rest of the prompt is the same with or without it.
   */
  lemma ProposedChangeOnlyWithDescription(target: GraphSymbol, affected: seq<GraphSymbol>, deps: seq<GraphSymbol>, description: string)
    ensures description == "" ==> ImpactContext(target, affected, deps, description) == ImpactContext(target, affected, deps, "")
    ensures description != "" ==>
      var h := |ContextHeader(target)|;
      var plain := ImpactContext(target, affected, deps, "");
      ImpactContext(target, affected, deps, description) == plain[..h] + ("Proposed change: " + description + "\n\n") + plain[h..]
  {
    var head := ContextHeader(target);
    var rest := DependencySection(deps) + AffectedSection(affected) + ContextFooter;
    var block := ProposedChange(description);
    var full := ImpactContext(target, affected, deps, description);
    AppendAssoc(head + block, DependencySection(deps), AffectedSection(affected));
    AppendAssoc(head + block, DependencySection(deps) + AffectedSection(affected), ContextFooter);
    AppendAssoc(head, block, rest);
    assert full == head + (block + rest);
    var plain := ImpactContext(target, affected, deps, "");
    assert head + "" == head;
    AppendAssoc(head, DependencySection(deps), AffectedSection(affected));
    AppendAssoc(head, DependencySection(deps) + AffectedSection(affected), ContextFooter);
    assert plain == head + rest;
    assert plain[..|head|] == head && plain[|head|..] == rest;
    AppendAssoc(head, block, rest);
  }

  /** Appending keeps a prefix. */
  lemma PrefixOfAppend(a: string, b: string, prefix: string)
    requires StartsWith(a, prefix)
    ensures StartsWith(a + b, prefix)
  {
    assert (a + b)[..|prefix|] == a[..|prefix|];
  }

  /** The context always opens with the fixed request line and closes with the list of questions. */
  lemma ContextFrame(target: GraphSymbol, affected: seq<GraphSymbol>, deps: seq<GraphSymbol>, description: string)
    ensures StartsWith(ImpactContext(target, affected, deps, description), ContextOpening)
    ensures EndsWith(ImpactContext(target, affected, deps, description), ContextFooter)
  {
    var symbolLine, typeLine, fileLine := "Symbol: " + target.name + "\n", "Type: " + target.kind + "\n", "File: " + target.filePath + "\n\n";
    PrefixOfAppend(ContextOpening, symbolLine, ContextOpening);
    PrefixOfAppend(ContextOpening + symbolLine, typeLine, ContextOpening);
    PrefixOfAppend(ContextOpening + symbolLine + typeLine, fileLine, ContextOpening);
    var head := ContextHeader(target);
    PrefixOfAppend(head, ProposedChange(description), ContextOpening);
    PrefixOfAppend(head + ProposedChange(description), DependencySection(deps), ContextOpening);
    var body := head + ProposedChange(description) + DependencySection(deps) + AffectedSection(affected);
    PrefixOfAppend(head + ProposedChange(description) + DependencySection(deps), AffectedSection(affected), ContextOpening);
    PrefixOfAppend(body, ContextFooter, ContextOpening);
    var c := ImpactContext(target, affected, deps, description);
    assert c[|c| - |ContextFooter|..] == ContextFooter;
  }

  // ---------------------------------------------------------------------------------------------
  // The analysis

  /**
   * A successful analysis of `t` reports `t`, exactly the symbols that reach it through calls
   * (itself excluded) and exactly the symbols it calls directly, each list in symbol-table order,
   * their counts, the risk level those counts give, and the narrative the model returned for the
   * context built from them; a failed one is the model's failure on that same context.
   */
  lemma ImpactOfMeaning(g: CallGraph, t: GraphSymbol, changeDescription: string, narrate: LanguageModel)
    ensures var r := ImpactOf(g, t, changeDescription, narrate);
      r.Ok? ==>
        && r.value.symbol == t
        && (forall s :: s in r.value.affectedSymbols <==> s in g.symbols && s.id != t.id && Reaches(g.edges, s.id, t.id))
        && (forall s :: s in r.value.dependencies <==> s in g.symbols && Edge(t.id, s.id) in g.edges)
        && IsSubsequence(r.value.affectedSymbols, g.symbols) && IsSubsequence(r.value.dependencies, g.symbols)
        && r.value.affectedCount == |r.value.affectedSymbols|
        && r.value.dependencyCount == |r.value.dependencies|
        && r.value.riskLevel == AssessRiskLevel(r.value.affectedCount, r.value.dependencyCount)
        && narrate(ImpactSystemPrompt, ImpactContext(t, r.value.affectedSymbols, r.value.dependencies, changeDescription))
             == Ok(r.value.analysis)
    ensures var r := ImpactOf(g, t, changeDescription, narrate);
      r.Err? ==> && r.error.AnalysisFailed?
                 && narrate(ImpactSystemPrompt, ImpactContext(t, Affected(g, t), Dependencies(g, t), changeDescription))
                      == Err(r.error.provider)
  {
    AffectedAreTransitiveCallers(g, t);
    var context := ImpactContext(t, Affected(g, t), Dependencies(g, t), changeDescription);
    assert ImpactOf(g, t, changeDescription, narrate).Err? ==> narrate(ImpactSystemPrompt, context).Err?;
  }

  /** The affected symbols are exactly the table's symbols that reach `t` through calls, `t` excluded. */
  lemma AffectedAreTransitiveCallers(g: CallGraph, t: GraphSymbol)
    ensures forall s :: s in Affected(g, t) <==> s in g.symbols && s.id != t.id && Reaches(g.edges, s.id, t.id)
  {
    forall x | Reaches(g.edges, x, t.id)
      ensures x in Froms(g.edges)
    {
      ReacherIsCaller(g.edges, x, t.id);
    }
  }

  /** There is at most one first match. */
  lemma FirstMatchUnique(symbols: seq<GraphSymbol>, name: string, filePath: string, i: int, j: int)
    requires FirstMatch(symbols, name, filePath, i) && FirstMatch(symbols, name, filePath, j)
    ensures i == j
  {
  }

  /** The symbols whose ids reach `t` through calls, in symbol-table order. */
  ghost function Affected(g: CallGraph, t: GraphSymbol): seq<GraphSymbol> {
    SelectSymbols(g.symbols, Reachers(g.edges, t.id))
  }

  /** The symbols whose ids `t` calls directly, in symbol-table order. */
  function Dependencies(g: CallGraph, t: GraphSymbol): seq<GraphSymbol> {
    SelectSymbols(g.symbols, Ids(Callees(g.edges, t.id)))
  }

  /**
   * What the analysis of target `t` yields: its transitive callers and its direct callees, each as
   * the symbols carrying those ids, the narrative the model returns for the context built from
   * them, and the risk level their counts give; the model's failure when it raises.
   */
  ghost function ImpactOf(g: CallGraph, t: GraphSymbol, changeDescription: string, narrate: LanguageModel)
    : Result<ImpactResult, ImpactError>
  {
    var affected := Affected(g, t);
    var dependencies := Dependencies(g, t);
    match narrate(ImpactSystemPrompt, ImpactContext(t, affected, dependencies, changeDescription))
    case Err(e) => Err(AnalysisFailed(e))
    case Ok(analysis) =>
      Ok(ImpactResult(t, affected, |affected|, dependencies, |dependencies|, analysis,
                      AssessRiskLevel(|affected|, |dependencies|)))
  }

  /** `analyze_impact`. */
  method AnalyzeImpact(file: GraphFile, symbolName: string, filePath: string, changeDescription: string, narrate: LanguageModel)
    returns (r: Result<ImpactResult, ImpactError>)
    ensures LoadGraph(file).Err? ==> r == Err(QueryFailed(LoadGraph(file).error))
    ensures LoadGraph(file).Ok? && (forall s :: s in LoadGraph(file).value.symbols ==> !Names(s, symbolName, filePath))
            ==> r == Err(QueryFailed(SymbolNotFound))
    ensures LoadGraph(file).Ok? ==>
      var g := LoadGraph(file).value;
      forall i :: FirstMatch(g.symbols, symbolName, filePath, i) ==> r == ImpactOf(g, g.symbols[i], changeDescription, narrate)
    ensures LoadGraph(file).Ok? && (exists s :: s in LoadGraph(file).value.symbols && Names(s, symbolName, filePath))
            ==> r.Ok? || r.error.AnalysisFailed?
    ensures r.Ok? || r.error.AnalysisFailed? ==>
      && LoadGraph(file).Ok?
      && exists i :: FirstMatch(LoadGraph(file).value.symbols, symbolName, filePath, i)
  {
    var loaded := LoadGraph(file);
    if loaded.Err? {
      return Err(QueryFailed(loaded.error));
    }
    var graph := loaded.value;
    var found := FindSymbol(graph.symbols, symbolName, filePath);
    if found.Err? {
      return Err(QueryFailed(found.error));
    }
    var target := found.value;
    ghost var first :| FirstMatch(graph.symbols, symbolName, filePath, first) && graph.symbols[first] == target;
    forall i | FirstMatch(graph.symbols, symbolName, filePath, i)
      ensures graph.symbols[i] == target
    {
      FirstMatchUnique(graph.symbols, symbolName, filePath, i, first);
    }
    r := AnalyzeTarget(graph, target, changeDescription, narrate);
  }

  /** The rest of `analyze_impact` once the target is found: search, select, build the context, narrate. */
  method AnalyzeTarget(graph: CallGraph, target: GraphSymbol, changeDescription: string, narrate: LanguageModel)
    returns (r: Result<ImpactResult, ImpactError>)
    ensures r == ImpactOf(graph, target, changeDescription, narrate)
  {
    var affectedIds := TransitiveCallers(graph.edges, target.id);
    assert affectedIds == Reachers(graph.edges, target.id);
    var affected := SelectSymbols(graph.symbols, affectedIds);
    var dependencyIds := Callees(graph.edges, target.id);
    var dependencies := SelectSymbols(graph.symbols, Ids(dependencyIds));
    var context := BuildImpactContext(target, affected, dependencies, changeDescription);
    var analysis := narrate(ImpactSystemPrompt, context);
    if analysis.Err? {
      return Err(AnalysisFailed(analysis.error));
    }
    r := Ok(ImpactResult(target, affected, |affected|, dependencies, |dependencies|, analysis.value,
                         AssessRiskLevel(|affected|, |dependencies|)));
  }
}
