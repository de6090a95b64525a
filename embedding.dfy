/**
 * The per-project vector store: a flat nearest-neighbour index and a metadata log whose positions
 * correspond, both persisted per project, plus the per-project lock map that serialises writers.
 * Embedding vectors are opaque values; FAISS's search is an oracle that returns neighbour rows.
 */
module Embedding {
  import opened Common

  type Vector = seq<real>

  /** A metadata record as the JSON log holds it; a key may be absent once the log has been hand-edited or truncated. */
  datatype MetadataRecord = MetadataRecord(
    filePath: Option<string>,
    name: Option<string>,
    kind: Option<string>,
    lineStart: Option<int>,
    lineEnd: Option<int>,
    code: Option<string>)

  /** An exhaustive L2 index: its fixed dimension and its vectors in insertion order (`ntotal` is their count). */
  datatype FlatIndex = FlatIndex(dimension: nat, vectors: seq<Vector>)

  /** A persisted index file that either reads back or raises on `read_index`. */
  datatype IndexFile = CorruptIndex | IndexData(index: FlatIndex)

  /** A persisted metadata file that either decodes or raises a JSON error. */
  datatype MetadataFile = CorruptMetadata | MetadataLog(records: seq<MetadataRecord>)

  datatype StoreError = LengthMismatch | DimensionMismatch | MetadataWriteFailed | IndexWriteFailed

  /** One row of `index.search`: a position in the index and its squared distance. */
  datatype Hit = Hit(position: int, distance: real)

  /** A copy of a stored record with the `score` key added. */
  datatype SearchResult = SearchResult(record: MetadataRecord, score: real)

  /** FAISS's search: index, query vector and requested count to the rows it returns, or None when it raises. */
  type NeighbourOracle = (FlatIndex, Vector, int) -> Option<seq<Hit>>

  function Lookup<K, V>(m: map<K, V>, k: K): Option<V> {
    if k in m then Some(m[k]) else None
  }

  /** Records the new content of one project's file: present with a value, or absent. */
  function Store<V>(m: map<string, V>, k: string, v: Option<V>): (r: map<string, V>)
    ensures Lookup(r, k) == v
    ensures forall k' :: k' != k ==> Lookup(r, k') == Lookup(m, k')
  {
    if v.Some? then m[k := v.value] else m - {k}
  }

  /** `create_or_load_index`: the stored index when it reads back; a fresh empty index otherwise, never a failure. */
  function CreateOrLoadIndex(file: Option<IndexFile>, dimension: nat): (index: FlatIndex)
    ensures file.Some? && file.value.IndexData? ==> index == file.value.index
    ensures !(file.Some? && file.value.IndexData?) ==> index.vectors == [] && index.dimension == dimension
  {
    match file
    case Some(IndexData(stored)) => stored
    case _ => FlatIndex(dimension, [])
  }

  /** `_load_metadata`: the stored records; an absent or undecodable file reads as an empty log. */
  function LoadMetadata(file: Option<MetadataFile>): (records: seq<MetadataRecord>)
    ensures file.Some? && file.value.MetadataLog? ==> records == file.value.records
    ensures !(file.Some? && file.value.MetadataLog?) ==> records == []
  {
    match file
    case Some(MetadataLog(records)) => records
    case _ => []
  }

  // ---------------------------------------------------------------------------------------------
  // Appending

  /** One project's two files after an append, and what the append reported. */
  datatype AppendOutcome = AppendOutcome(indexFile: Option<IndexFile>, metadataFile: Option<MetadataFile>, result: Outcome<StoreError>)

  predicate AllOfDimension(vectors: seq<Vector>, dimension: nat) {
    forall i :: 0 <= i < |vectors| ==> |vectors[i]| == dimension
  }

  /**
   * What the file system does with one write: it completes; `open` raises, leaving the old file as
   * it was; or the write raises after `open` truncated the file, leaving it unreadable.
   */
  datatype WriteOutcome = Written | OpenFailed | WriteFailed

  /** A file after a write of `content` with outcome `w`. */
  function AfterWrite<F>(file: Option<F>, w: WriteOutcome, content: F, unreadable: F): (r: Option<F>)
    ensures w == Written ==> r == Some(content)
    ensures w == OpenFailed ==> r == file
    ensures w == WriteFailed ==> r == Some(unreadable)
  {
    match w
    case Written => Some(content)
    case OpenFailed => file
    case WriteFailed => Some(unreadable)
  }

  /**
   * `add_embeddings` on one project's files. The two writes are outcomes of the file system:
   * the metadata log is written first, then the index; a failed write ends the call.
   */
  function AppendBatch(indexFile: Option<IndexFile>, metadataFile: Option<MetadataFile>,
                       vectors: seq<Vector>, metadata: seq<MetadataRecord>,
                       metadataWrite: WriteOutcome, indexWrite: WriteOutcome): AppendOutcome
  {
    if |vectors| != |metadata| then AppendOutcome(indexFile, metadataFile, Fail(LengthMismatch))
    else if |vectors| == 0 then AppendOutcome(indexFile, metadataFile, Pass)
    else
      var index := CreateOrLoadIndex(indexFile, |vectors[0]|);
      if !AllOfDimension(vectors, index.dimension) then AppendOutcome(indexFile, metadataFile, Fail(DimensionMismatch))
      else
        var log := LoadMetadata(metadataFile) + metadata;
        var grown := IndexData(FlatIndex(index.dimension, index.vectors + vectors));
        if metadataWrite != Written then
          AppendOutcome(indexFile, AfterWrite(metadataFile, metadataWrite, MetadataLog(log), CorruptMetadata), Fail(MetadataWriteFailed))
        else if indexWrite != Written then
          AppendOutcome(AfterWrite(indexFile, indexWrite, grown, CorruptIndex), Some(MetadataLog(log)), Fail(IndexWriteFailed))
        else AppendOutcome(Some(grown), Some(MetadataLog(log)), Pass)
  }

  /** Vectors and metadata of different lengths are refused before either file is touched. */
  lemma AppendRejectsMismatch(indexFile: Option<IndexFile>, metadataFile: Option<MetadataFile>,
                              vectors: seq<Vector>, metadata: seq<MetadataRecord>, metadataWrite: WriteOutcome, indexWrite: WriteOutcome)
    requires |vectors| != |metadata|
    ensures AppendBatch(indexFile, metadataFile, vectors, metadata, metadataWrite, indexWrite)
            == AppendOutcome(indexFile, metadataFile, Fail(LengthMismatch))
  {
  }

  /** An empty batch changes nothing and succeeds. */
  lemma AppendEmptyIsNoOp(indexFile: Option<IndexFile>, metadataFile: Option<MetadataFile>, metadataWrite: WriteOutcome, indexWrite: WriteOutcome)
    ensures AppendBatch(indexFile, metadataFile, [], [], metadataWrite, indexWrite)
            == AppendOutcome(indexFile, metadataFile, Pass)
  {
  }

  /**
   * A successful append leaves the old log followed by the new records, in the given order, and an
   * index grown by exactly the new vectors, appended after the old ones (after none, when the old
   * index was absent or unreadable).
   */
  lemma AppendSuccess(indexFile: Option<IndexFile>, metadataFile: Option<MetadataFile>,
                      vectors: seq<Vector>, metadata: seq<MetadataRecord>, metadataWrite: WriteOutcome, indexWrite: WriteOutcome)
    requires |vectors| > 0
    requires AppendBatch(indexFile, metadataFile, vectors, metadata, metadataWrite, indexWrite).result.Pass?
    ensures var o := AppendBatch(indexFile, metadataFile, vectors, metadata, metadataWrite, indexWrite);
            var before := CreateOrLoadIndex(indexFile, |vectors[0]|);
            && o.metadataFile == Some(MetadataLog(LoadMetadata(metadataFile) + metadata))
            && o.indexFile.Some? && o.indexFile.value.IndexData?
            && o.indexFile.value.index.vectors == before.vectors + vectors
            && |o.indexFile.value.index.vectors| == |before.vectors| + |vectors|
            && o.indexFile.value.index.dimension == before.dimension
            && |vectors| == |metadata|
  {
  }

  /** The two files of a project hold the same number of items, and both read back. */
  predicate Aligned(indexFile: Option<IndexFile>, metadataFile: Option<MetadataFile>) {
    && (indexFile.None? || indexFile.value.IndexData?)
    && (metadataFile.None? || metadataFile.value.MetadataLog?)
    && |CreateOrLoadIndex(indexFile, 0).vectors| == |LoadMetadata(metadataFile)|
  }

  /** From aligned files every successful append leaves them aligned: position i names the same symbol in both. */
  lemma AppendKeepsAligned(indexFile: Option<IndexFile>, metadataFile: Option<MetadataFile>,
                           vectors: seq<Vector>, metadata: seq<MetadataRecord>, metadataWrite: WriteOutcome, indexWrite: WriteOutcome)
    requires Aligned(indexFile, metadataFile)
    requires AppendBatch(indexFile, metadataFile, vectors, metadata, metadataWrite, indexWrite).result.Pass?
    ensures var o := AppendBatch(indexFile, metadataFile, vectors, metadata, metadataWrite, indexWrite);
            Aligned(o.indexFile, o.metadataFile)
  {
    if |vectors| > 0 {
      AppendSuccess(indexFile, metadataFile, vectors, metadata, metadataWrite, indexWrite);
    }
  }

  /**
   * A failed log write leaves the index untouched; when it fails after `open`, the truncated log
   * reads back as empty, so every record stored before is lost to later searches and appends.
   */
  lemma MetadataWriteFailureLosesLog(indexFile: Option<IndexFile>, metadataFile: Option<MetadataFile>,
                                     vectors: seq<Vector>, metadata: seq<MetadataRecord>, metadataWrite: WriteOutcome, indexWrite: WriteOutcome)
    requires AppendBatch(indexFile, metadataFile, vectors, metadata, metadataWrite, indexWrite).result == Fail(MetadataWriteFailed)
    ensures var o := AppendBatch(indexFile, metadataFile, vectors, metadata, metadataWrite, indexWrite);
            && metadataWrite != Written
            && o.indexFile == indexFile
            && o.metadataFile == (if metadataWrite == OpenFailed then metadataFile else Some(CorruptMetadata))
            && (metadataWrite == WriteFailed ==> LoadMetadata(o.metadataFile) == [])
  {
  }

  /**
   * The two writes are not atomic: when the index write fails after the log was written, the log
   * runs ahead of the index by the whole batch (the index is as before, or truncated and
   * unreadable), and the files are no longer aligned.
   */
  lemma IndexWriteFailureLeavesLogAhead(indexFile: Option<IndexFile>, metadataFile: Option<MetadataFile>,
                                        vectors: seq<Vector>, metadata: seq<MetadataRecord>, metadataWrite: WriteOutcome, indexWrite: WriteOutcome)
    requires Aligned(indexFile, metadataFile)
    requires AppendBatch(indexFile, metadataFile, vectors, metadata, metadataWrite, indexWrite).result == Fail(IndexWriteFailed)
    ensures var o := AppendBatch(indexFile, metadataFile, vectors, metadata, metadataWrite, indexWrite);
            && indexWrite != Written
            && o.indexFile == (if indexWrite == OpenFailed then indexFile else Some(CorruptIndex))
            && |LoadMetadata(o.metadataFile)| == |CreateOrLoadIndex(indexFile, 0).vectors| + |vectors|
            && |vectors| > 0
            && !Aligned(o.indexFile, o.metadataFile)
  {
  }

  /**
   * An unreadable log reads as empty, so a successful append over a non-empty index leaves the log
   * shorter than the index: position i of the log no longer names vector i.
   */
  lemma CorruptLogBreaksAlignment(index: FlatIndex, vectors: seq<Vector>, metadata: seq<MetadataRecord>)
    requires |index.vectors| > 0 && |vectors| == |metadata| > 0
    requires AllOfDimension(vectors, index.dimension)
    ensures var o := AppendBatch(Some(IndexData(index)), Some(CorruptMetadata), vectors, metadata, Written, Written);
            && o.result == Pass
            && !Aligned(o.indexFile, o.metadataFile)
            && LoadMetadata(o.metadataFile) == metadata
            && |CreateOrLoadIndex(o.indexFile, 0).vectors| == |index.vectors| + |vectors|
  {
  }

  // ---------------------------------------------------------------------------------------------
  // Searching

  /** Python's `xs[i]` on a list of length `n`: negative positions count from the end; anything else raises. */
  function PyIndex(n: nat, i: int): (r: Option<nat>)
    ensures r.Some? ==> r.value < n
    ensures 0 <= i < n ==> r == Some(i)
    ensures -(n as int) <= i < 0 ==> r == Some((n as int + i) as nat)
    ensures i < -(n as int) || n as int <= i ==> r.None?
  {
    if 0 <= i < n then Some(i) else if -(n as int) <= i < 0 then Some(n + i) else None
  }

  /**
   * The result loop of `search`: each row whose position is below the log's length becomes a copy of
   * that record with its score; rows at or past the end are dropped. None when a lookup raises.
   */
  function Assemble(log: seq<MetadataRecord>, hits: seq<Hit>): (r: Option<seq<SearchResult>>)
    ensures r.Some? ==> |r.value| <= |hits|
    ensures r.Some? ==> forall x :: x in r.value ==> x.record in log
  {
    if hits == [] then Some([])
    else
      var h := hits[|hits| - 1];
      match Assemble(log, hits[..|hits| - 1])
      case None => None
      case Some(results) =>
        if h.position < |log| then
          match PyIndex(|log|, h.position)
          case None => None
          case Some(p) => Some(results + [SearchResult(log[p], h.distance)])
        else Some(results)
  }

  /** The rows the result loop keeps: those whose position is below the log's length `n`, in row order. */
  function Kept(hits: seq<Hit>, n: nat): (r: seq<Hit>)
    ensures forall h :: h in r <==> h in hits && h.position < n
    ensures |r| <= |hits|
  {
    if hits == [] then []
    else
      var h := hits[|hits| - 1];
      Kept(hits[..|hits| - 1], n) + (if h.position < n then [h] else [])
  }

  /** `search` on one project's files, with the query's embedding (None when the provider raised). */
  function SearchSpec(indexFile: Option<IndexFile>, metadataFile: Option<MetadataFile>,
                      query: Option<Vector>, k: int, nearest: NeighbourOracle): seq<SearchResult>
  {
    if indexFile.None? || metadataFile.None? then []
    else if indexFile.value.CorruptIndex? then []
    else
      var index := indexFile.value.index;
      var log := LoadMetadata(metadataFile);
      if |index.vectors| == 0 || |log| == 0 then []
      else if query.None? then []
      else
        match nearest(index, query.value, Min(k, |index.vectors|))
        case None => []
        case Some(hits) => Assemble(log, hits).GetOr([])
  }

  /** A project that was never indexed, or whose index or log is empty or unreadable, has no results. */
  lemma SearchEmptyWhenNotIndexed(indexFile: Option<IndexFile>, metadataFile: Option<MetadataFile>,
                                  query: Option<Vector>, k: int, nearest: NeighbourOracle)
    requires || indexFile.None? || metadataFile.None?
             || CreateOrLoadIndex(indexFile, 0).vectors == [] || LoadMetadata(metadataFile) == []
    ensures SearchSpec(indexFile, metadataFile, query, k, nearest) == []
  {
  }

  /**
   * `search` asks for `min(k, ntotal)` neighbours; when FAISS returns no more rows than asked, the
   * result holds at most that many entries, each a stored record.
   */
  lemma SearchBound(indexFile: Option<IndexFile>, metadataFile: Option<MetadataFile>,
                    query: Option<Vector>, k: int, nearest: NeighbourOracle)
    requires indexFile.Some? && indexFile.value.IndexData? && query.Some? && k >= 0
    requires var index := indexFile.value.index;
             var rows := nearest(index, query.value, Min(k, |index.vectors|));
             rows.Some? ==> |rows.value| <= Min(k, |index.vectors|)
    ensures var r := SearchSpec(indexFile, metadataFile, query, k, nearest);
            && |r| <= Min(k, |indexFile.value.index.vectors|)
            && forall x :: x in r ==> x.record in LoadMetadata(metadataFile)
  {
  }

  /** With every row inside the log, the results are exactly the rows' records with their scores, in row order. */
  lemma {:induction false} AssembleInRange(log: seq<MetadataRecord>, hits: seq<Hit>)
    requires forall i :: 0 <= i < |hits| ==> 0 <= hits[i].position < |log|
    ensures var r := Assemble(log, hits);
            && r.Some? && |r.value| == |hits|
            && forall i :: 0 <= i < |hits| ==> r.value[i] == SearchResult(log[hits[i].position], hits[i].distance)
  {
    if hits != [] {
      AssembleInRange(log, hits[..|hits| - 1]);
    }
  }

  /** Python's reading of position `q` in a list of length `n`: a negative position counts from the end. */
  function FromEnd(n: nat, q: int): int {
    if q >= 0 then q else n + q
  }

  /**
   * `results` holds, for each kept row in order, a copy of the record its position names with the
   * row's distance as score.
   */
  predicate ListsRows(log: seq<MetadataRecord>, kept: seq<Hit>, results: seq<SearchResult>) {
    && |results| == |kept|
    && forall i :: 0 <= i < |kept| ==>
         && 0 <= FromEnd(|log|, kept[i].position) < |log|
         && results[i] == SearchResult(log[FromEnd(|log|, kept[i].position)], kept[i].distance)
  }

  /**
   * When no row lies below minus the log's length, no lookup raises: the results are the kept rows,
   * in row order, each the record its position names (a negative position counting from the end)
   * with the row's distance as score.
   */
  lemma {:induction false} AssembleKeepsRowsInOrder(log: seq<MetadataRecord>, hits: seq<Hit>)
    requires forall h :: h in hits ==> -(|log| as int) <= h.position
    ensures Assemble(log, hits).Some?
    ensures ListsRows(log, Kept(hits, |log|), Assemble(log, hits).value)
  {
    if hits != [] {
      var init := hits[..|hits| - 1];
      var h := hits[|hits| - 1];
      assert forall x :: x in init ==> x in hits;
      AssembleKeepsRowsInOrder(log, init);
      var before := Assemble(log, init).value;
      var keptBefore := Kept(init, |log|);
      if h.position < |log| {
        var p := FromEnd(|log|, h.position);
        var row := SearchResult(log[p], h.distance);
        assert Assemble(log, hits) == Some(before + [row]);
        assert Kept(hits, |log|) == keptBefore + [h];
        ListsRowsStep(log, keptBefore, before, h, row);
      } else {
        assert Assemble(log, hits) == Some(before);
        assert Kept(hits, |log|) == keptBefore;
      }
    }
  }

  /** One more kept row and its result extend the listing. */
  lemma ListsRowsStep(log: seq<MetadataRecord>, kept: seq<Hit>, results: seq<SearchResult>, h: Hit, row: SearchResult)
    requires ListsRows(log, kept, results)
    requires 0 <= FromEnd(|log|, h.position) < |log|
    requires row == SearchResult(log[FromEnd(|log|, h.position)], h.distance)
    ensures ListsRows(log, kept + [h], results + [row])
  {
    var k := kept + [h];
    var r := results + [row];
    forall i | 0 <= i < |k|
      ensures 0 <= FromEnd(|log|, k[i].position) < |log|
      ensures r[i] == SearchResult(log[FromEnd(|log|, k[i].position)], k[i].distance)
    {
      if i < |kept| {
        assert k[i] == kept[i] && r[i] == results[i];
      }
    }
  }

  /** A row below minus the log's length makes its lookup raise, and then the whole result loop has raised. */
  lemma AssembleFailsOnFarNegative(log: seq<MetadataRecord>, hits: seq<Hit>, i: nat)
    requires i < |hits| && hits[i].position < -(|log| as int)
    ensures Assemble(log, hits) == None
  {
    assert hits[..i + 1][..i] == hits[..i];
    assert Assemble(log, hits[..i + 1]) == None;
    AssembleStaysFailed(log, hits, i + 1);
  }

  // ---------------------------------------------------------------------------------------------
  // The store

  /** The per-project `asyncio.Lock`; only its identity matters here. */
  class Lock {
    constructor () {}
  }

  /** The process-wide store: the lock map and every project's index and metadata files, keyed by project id. */
  class VectorStore {
    var locks: map<string, Lock>
    var indexFiles: map<string, IndexFile>
    var metadataFiles: map<string, MetadataFile>

    constructor ()
      ensures locks == map[] && indexFiles == map[] && metadataFiles == map[]
    {
      locks := map[];
      indexFiles := map[];
      metadataFiles := map[];
    }

    /** `_get_lock`: one lock per project, created on first use, the same object on every later call. */
    method GetLock(projectId: string) returns (lock: Lock)
      modifies this
      ensures projectId in old(locks) ==> lock == old(locks)[projectId] && locks == old(locks)
      ensures projectId !in old(locks) ==> fresh(lock) && locks == old(locks)[projectId := lock]
      ensures indexFiles == old(indexFiles) && metadataFiles == old(metadataFiles)
    {
      if projectId !in locks {
        var created := new Lock();
        locks := locks[projectId := created];
      }
      lock := locks[projectId];
    }

    /** `add_embeddings` for one project, under that project's lock. */
    method AddEmbeddings(projectId: string, vectors: seq<Vector>, metadata: seq<MetadataRecord>,
                         metadataWrite: WriteOutcome, indexWrite: WriteOutcome)
      returns (result: Outcome<StoreError>)
      modifies this
      ensures var o := AppendBatch(old(Lookup(indexFiles, projectId)), old(Lookup(metadataFiles, projectId)),
                                   vectors, metadata, metadataWrite, indexWrite);
              && result == o.result
              && indexFiles == Store(old(indexFiles), projectId, o.indexFile)
              && metadataFiles == Store(old(metadataFiles), projectId, o.metadataFile)
      ensures |vectors| != |metadata| || |vectors| == 0 ==> locks == old(locks)
      ensures |vectors| == |metadata| && |vectors| > 0 ==>
                projectId in locks && forall p :: p in old(locks) ==> p in locks && locks[p] == old(locks)[p]
    {
      var indexFile := Lookup(indexFiles, projectId);
      var metadataFile := Lookup(metadataFiles, projectId);
      if |vectors| != |metadata| {
        return Fail(LengthMismatch);
      }
      if |vectors| == 0 {
        return Pass;
      }
      var lock := GetLock(projectId);
      var index := CreateOrLoadIndex(indexFile, |vectors[0]|);
      var i := 0;
      while i < |vectors|
        invariant 0 <= i <= |vectors|
        invariant AllOfDimension(vectors[..i], index.dimension)
      {
        if |vectors[i]| != index.dimension {
          assert !AllOfDimension(vectors, index.dimension);
          return Fail(DimensionMismatch);
        }
        assert vectors[..i + 1] == vectors[..i] + [vectors[i]];
        i := i + 1;
      }
      assert vectors[..i] == vectors;
      var log := LoadMetadata(metadataFile);
      log := log + metadata;
      var grown := IndexData(FlatIndex(index.dimension, index.vectors + vectors));
      if metadataWrite != Written {
        if metadataWrite == WriteFailed {
          metadataFiles := metadataFiles[projectId := CorruptMetadata];
        }
        return Fail(MetadataWriteFailed);
      }
      metadataFiles := metadataFiles[projectId := MetadataLog(log)];
      if indexWrite != Written {
        if indexWrite == WriteFailed {
          indexFiles := indexFiles[projectId := CorruptIndex];
        }
        return Fail(IndexWriteFailed);
      }
      indexFiles := indexFiles[projectId := grown];
      result := Pass;
    }

    /** `search` for one project; it reads the store and changes nothing. */
    method Search(projectId: string, query: Option<Vector>, k: int, nearest: NeighbourOracle)
      returns (results: seq<SearchResult>)
      ensures results == SearchSpec(Lookup(indexFiles, projectId), Lookup(metadataFiles, projectId), query, k, nearest)
    {
      if projectId !in indexFiles || projectId !in metadataFiles {
        return [];
      }
      if indexFiles[projectId].CorruptIndex? {
        return [];
      }
      var index := indexFiles[projectId].index;
      var log := LoadMetadata(Lookup(metadataFiles, projectId));
      if |index.vectors| == 0 || |log| == 0 || query.None? {
        return [];
      }
      var rows := nearest(index, query.value, Min(k, |index.vectors|));
      if rows.None? {
        return [];
      }
      var hits := rows.value;
      results := [];
      var i := 0;
      while i < |hits|
        invariant 0 <= i <= |hits|
        invariant Assemble(log, hits[..i]) == Some(results)
      {
        assert hits[..i + 1][..i] == hits[..i];
        var h := hits[i];
        if h.position < |log| {
          var p := PyIndex(|log|, h.position);
          if p.None? {
            assert Assemble(log, hits[..i + 1]) == None;
            AssembleStaysFailed(log, hits, i + 1);
            assert hits[..|hits|] == hits;
            return [];
          }
          results := results + [SearchResult(log[p.value], h.distance)];
        }
        i := i + 1;
      }
      assert hits[..i] == hits;
    }
  }

  /** Once a lookup has raised, the whole result loop has raised. */
  lemma {:induction false} AssembleStaysFailed(log: seq<MetadataRecord>, hits: seq<Hit>, n: nat)
    requires n <= |hits|
    requires Assemble(log, hits[..n]) == None
    ensures Assemble(log, hits) == None
    decreases |hits| - n
  {
    if n < |hits| {
      assert hits[..n + 1][..n] == hits[..n];
      AssembleStaysFailed(log, hits, n + 1);
    } else {
      assert hits[..n] == hits;
    }
  }
}
