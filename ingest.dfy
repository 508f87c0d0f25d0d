/** Document ingestion of casalioy/ingest.py: files are dispatched to a loader
    by extension, split into chunks, embedded, and upserted into a Qdrant
    collection under ids derived from the chunk text. Loaders, splitter,
    embedder and the MD5 digest are foreign and are given as functions; the
    store is a map from collection names to collections. */
module Ingest {
  import opened Wrappers
  import opened Text
  import opened Collaborators

  /** The LangChain loader classes the extension table refers to. */
  datatype Loader =
    | TextLoader | PDFMinerLoader | CSVLoader | EPubLoader | HTMLLoader
    | Docx2txtLoader | PowerPointLoader | EmailLoader | OutlookMessageLoader

  /** `Ingester.file_loaders`: extension (without the dot) to loader. */
  const FileLoaders: map<string, Loader> := map[
    "txt" := TextLoader, "pdf" := PDFMinerLoader, "csv" := CSVLoader,
    "epub" := EPubLoader, "html" := HTMLLoader, "docx" := Docx2txtLoader,
    "pptx" := PowerPointLoader, "eml" := EmailLoader, "msg" := OutlookMessageLoader]

  /** A `pathlib.Path` as the directory walk builds it: a directory and a file name. */
  datatype FilePath = FilePath(parent: string, name: string)

  /** `PurePath.suffix`: the name from its last dot on, unless that dot is the
      first or the last character of the name, in which case there is none. */
  function Suffix(name: string): (s: string)
    ensures s == [] || (2 <= |s| < |name| && s == name[|name| - |s|..] && s[0] == '.')
    ensures forall k :: 1 <= k < |s| ==> s[k] != '.'
  {
    var i := LastIndexOf(name, '.');
    if 0 < i < |name| - 1 then name[i..] else ""
  }

  /** The table key `filepath.suffix[1:]`: the extension without its dot, or "". */
  function LoaderKey(path: FilePath): string {
    var s := Suffix(path.name);
    if s == [] then [] else s[1..]
  }

  /** `Ingester.load_one_doc`: the loader the table registers for the
      extension reads the file; a file whose extension has no loader yields no
      documents. The ingester's table is `FileLoaders`. */
  function LoadOneDoc(path: FilePath, loaders: map<string, Loader>, load: (Loader, FilePath) -> seq<Document>): seq<Document> {
    var key := LoaderKey(path);
    if key in loaders then load(loaders[key], path) else []
  }

  /** A name `stem.ext` with a non-empty stem and a dot-free extension has the suffix `.ext`. */
  lemma SuffixOfExtension(stem: string, ext: string)
    requires |stem| > 0 && |ext| > 0 && '.' !in ext
    ensures Suffix(stem + "." + ext) == "." + ext
  {
    var name := stem + "." + ext;
    var i := LastIndexOf(name, '.');
    assert name[|stem|] == '.';
    assert name[i..] == "." + ext;
  }

  /** A file `stem.ext` goes to the loader registered for `ext`, compared
      case-sensitively, and to no loader when `ext` is not registered. */
  lemma LoadOneDocDispatch(parent: string, stem: string, ext: string, load: (Loader, FilePath) -> seq<Document>)
    requires |stem| > 0 && |ext| > 0 && '.' !in ext
    ensures var path := FilePath(parent, stem + "." + ext);
      LoadOneDoc(path, FileLoaders, load) == if ext in FileLoaders then load(FileLoaders[ext], path) else []
  {
    SuffixOfExtension(stem, ext);
    assert ("." + ext)[1..] == ext;
  }

  /** Upper-case extensions are not in the table: such files are skipped. */
  lemma LoadOneDocUpperCaseSkipped(parent: string, stem: string, load: (Loader, FilePath) -> seq<Document>)
    requires |stem| > 0
    ensures LoadOneDoc(FilePath(parent, stem + ".PDF"), FileLoaders, load) == []
  {
    assert stem + "." + "PDF" == stem + ".PDF";
    LoadOneDocDispatch(parent, stem, "PDF", load);
  }

  /** A name without a dot has no suffix: the file is skipped. */
  lemma LoadOneDocNoSuffix(path: FilePath, load: (Loader, FilePath) -> seq<Document>)
    requires '.' !in path.name
    ensures LoadOneDoc(path, FileLoaders, load) == []
  {
  }

  /** A hidden file such as `.txt` has no suffix either: it is skipped. */
  lemma LoadOneDocHiddenFile(parent: string, ext: string, load: (Loader, FilePath) -> seq<Document>)
    requires '.' !in ext
    ensures LoadOneDoc(FilePath(parent, "." + ext), FileLoaders, load) == []
  {
    var name := "." + ext;
    assert name[0] == '.' && name[1..] == ext;
  }

  /** An embedding vector. */
  type Vector = seq<real>

  /** The payload stored with each point. */
  datatype Payload = Payload(pageContent: string, metadata: Metadata)

  datatype Point = Point(vector: Vector, payload: Payload)

  /** A Qdrant collection: its vector size and its points by id. */
  datatype Collection = Collection(vectorSize: nat, points: map<string, Point>)

  /** One element of `zip(embeddings, documents)`. */
  datatype Embedded = Embedded(vector: Vector, doc: Document)

  /** Python's `zip`: pairs by position, as long as the shorter list. */
  function Zip(vectors: seq<Vector>, docs: seq<Document>): (pairs: seq<Embedded>)
    ensures |pairs| == if |vectors| <= |docs| then |vectors| else |docs|
    ensures forall i :: 0 <= i < |pairs| ==> pairs[i] == Embedded(vectors[i], docs[i])
  {
    if vectors == [] || docs == [] then []
    else [Embedded(vectors[0], docs[0])] + Zip(vectors[1..], docs[1..])
  }

  /** `[doc.page_content for doc in documents]`. */
  function Texts(docs: seq<Document>): seq<string> {
    seq(|docs|, i requires 0 <= i < |docs| => docs[i].pageContent)
  }

  /** `max(len(e[0]) for e in embeddings)`: the longest vector's length. */
  function MaxVectorLen(es: seq<Embedded>): (m: nat)
    requires es != []
    ensures forall i :: 0 <= i < |es| ==> |es[i].vector| <= m
    ensures exists i :: 0 <= i < |es| && |es[i].vector| == m
  {
    if |es| == 1 then |es[0].vector|
    else
      var rest := MaxVectorLen(es[1..]);
      var j :| 0 <= j < |es[1..]| && |es[1..][j].vector| == rest;
      assert es[1..][j] == es[j + 1];
      if |es[0].vector| >= rest then |es[0].vector| else rest
  }

  /** The points a batch upserts, as `models.Batch` lists them: id, vector and payload at each position. */
  function Batch(hash: string -> string, es: seq<Embedded>): seq<(string, Point)> {
    seq(|es|, i requires 0 <= i < |es| =>
      (hash(es[i].doc.pageContent), Point(es[i].vector, Payload(es[i].doc.pageContent, es[i].doc.metadata))))
  }

  /** The ids a batch mentions. */
  function Ids(b: seq<(string, Point)>): set<string> {
    set i | 0 <= i < |b| :: b[i].0
  }

  lemma IdsCons(b: seq<(string, Point)>)
    requires b != []
    ensures Ids(b) == {b[0].0} + Ids(b[1..])
  {
    forall x | x in Ids(b) ensures x in {b[0].0} + Ids(b[1..]) {
      var i :| 0 <= i < |b| && b[i].0 == x;
      if i > 0 {
        assert b[1..][i - 1] == b[i];
      }
    }
    forall x | x in Ids(b[1..]) ensures x in Ids(b) {
      var i :| 0 <= i < |b[1..]| && b[1..][i].0 == x;
      assert b[i + 1] == b[1..][i];
    }
  }

  /** `client.upsert`: each point of the batch, in order, replaces or adds the
      point under its id. */
  function UpsertAll(points: map<string, Point>, b: seq<(string, Point)>): (r: map<string, Point>)
    ensures r.Keys == points.Keys + Ids(b)
    decreases |b|
  {
    if b == [] then points
    else
      IdsCons(b);
      UpsertAll(points[b[0].0 := b[0].1], b[1..])
  }

  /** The position of the last point of a batch with a given id. */
  function LastOccurrence(b: seq<(string, Point)>, id: string): (j: nat)
    requires id in Ids(b)
    ensures j < |b| && b[j].0 == id
    ensures forall k :: j < k < |b| ==> b[k].0 != id
    decreases |b|
  {
    if b[|b| - 1].0 == id then |b| - 1
    else
      var front := b[..|b| - 1];
      assert id in Ids(front) by {
        var i :| 0 <= i < |b| && b[i].0 == id;
        assert front[i] == b[i];
      }
      var j := LastOccurrence(front, id);
      assert forall k :: j < k < |front| ==> front[k] == b[k];
      j
  }

  /** Upserting leaves every point whose id the batch does not mention alone. */
  lemma {:induction false} UpsertAllOutside(points: map<string, Point>, b: seq<(string, Point)>, id: string)
    requires id !in Ids(b)
    ensures id in points ==> UpsertAll(points, b)[id] == points[id]
    decreases |b|
  {
    if b != [] {
      IdsCons(b);
      UpsertAllOutside(points[b[0].0 := b[0].1], b[1..], id);
    }
  }

  /** The last point of the batch with a given id is the one stored under it. */
  lemma {:induction false} UpsertAllLast(points: map<string, Point>, b: seq<(string, Point)>, j: nat)
    requires j < |b|
    requires forall k :: j < k < |b| ==> b[k].0 != b[j].0
    ensures b[j].0 in UpsertAll(points, b) && UpsertAll(points, b)[b[j].0] == b[j].1
    decreases |b|
  {
    IdsCons(b);
    var rest := b[1..];
    if j == 0 {
      UpsertAllOutside(points[b[0].0 := b[0].1], rest, b[0].0);
    } else {
      assert rest[j - 1] == b[j];
      assert forall k :: j - 1 < k < |rest| ==> rest[k] == b[k + 1];
      UpsertAllLast(points[b[0].0 := b[0].1], rest, j - 1);
    }
  }

  /** Upserting a batch twice is upserting it once. */
  lemma UpsertAllIdempotent(points: map<string, Point>, b: seq<(string, Point)>)
    ensures UpsertAll(UpsertAll(points, b), b) == UpsertAll(points, b)
  {
    var once := UpsertAll(points, b);
    var twice := UpsertAll(once, b);
    forall id | id in once ensures twice[id] == once[id] {
      if id in Ids(b) {
        var j := LastOccurrence(b, id);
        UpsertAllLast(points, b, j);
        UpsertAllLast(once, b, j);
      } else {
        UpsertAllOutside(once, b, id);
      }
    }
  }

  /** Upserting a concatenation is upserting one part after the other. */
  lemma {:induction false} UpsertAllAppend(points: map<string, Point>, b1: seq<(string, Point)>, b2: seq<(string, Point)>)
    ensures UpsertAll(points, b1 + b2) == UpsertAll(UpsertAll(points, b1), b2)
    decreases |b1|
  {
    if b1 != [] {
      var next := points[b1[0].0 := b1[0].1];
      assert (b1 + b2)[0] == b1[0] && (b1 + b2)[1..] == b1[1..] + b2;
      assert UpsertAll(points, b1 + b2) == UpsertAll(next, b1[1..] + b2);
      assert UpsertAll(points, b1) == UpsertAll(next, b1[1..]);
      UpsertAllAppend(next, b1[1..], b2);
    } else {
      assert b1 + b2 == b2;
    }
  }

  /** Every id is the digest of the text stored under it. */
  predicate ContentAddressed(hash: string -> string, points: map<string, Point>) {
    forall id :: id in points ==> id == hash(points[id].payload.pageContent)
  }

  /** Storing a batch keeps the store content-addressed. */
  lemma StoreKeepsContentAddressed(hash: string -> string, points: map<string, Point>, es: seq<Embedded>)
    requires ContentAddressed(hash, points)
    ensures ContentAddressed(hash, UpsertAll(points, Batch(hash, es)))
  {
    var b := Batch(hash, es);
    var stored := UpsertAll(points, b);
    forall id | id in stored ensures id == hash(stored[id].payload.pageContent) {
      if id in Ids(b) {
        var j := LastOccurrence(b, id);
        UpsertAllLast(points, b, j);
      } else {
        UpsertAllOutside(points, b, id);
      }
    }
  }

  /** A chunk whose id no later chunk of the batch shares is stored under the
      digest of its text with its own vector, text and metadata. */
  lemma StoredChunk(hash: string -> string, points: map<string, Point>, es: seq<Embedded>, i: nat)
    requires i < |es|
    requires forall k :: i < k < |es| ==> hash(es[k].doc.pageContent) != hash(es[i].doc.pageContent)
    ensures var stored := UpsertAll(points, Batch(hash, es));
      var id := hash(es[i].doc.pageContent);
      id in stored && stored[id] == Point(es[i].vector, Payload(es[i].doc.pageContent, es[i].doc.metadata))
  {
    var b := Batch(hash, es);
    assert forall k :: i < k < |b| ==> b[k].0 == hash(es[k].doc.pageContent);
    UpsertAllLast(points, b, i);
  }

  /** A batch whose texts are all stored already adds no point. */
  lemma StoreKnownTextsKeepsCount(hash: string -> string, points: map<string, Point>, es: seq<Embedded>)
    requires forall i :: 0 <= i < |es| ==> hash(es[i].doc.pageContent) in points
    ensures |UpsertAll(points, Batch(hash, es))| == |points|
  {
    var b := Batch(hash, es);
    forall id | id in Ids(b) ensures id in points {
      var i :| 0 <= i < |b| && b[i].0 == id;
    }
    assert UpsertAll(points, b).Keys == points.Keys;
  }

  /** The exception `max()` raises on an empty batch. */
  const MaxOfEmpty := "ValueError"

  /** The collection after `store_embeddings`: an existing collection takes the
      batch as it is; a missing one is first created with the longest vector's
      size, which fails when the batch is empty. */
  function Store(hash: string -> string, c: Option<Collection>, es: seq<Embedded>): Result<Collection> {
    if c.Some? then Success(Collection(c.value.vectorSize, UpsertAll(c.value.points, Batch(hash, es))))
    else if es == [] then Failure(MaxOfEmpty)
    else Success(Collection(MaxVectorLen(es), UpsertAll(map[], Batch(hash, es))))
  }

  /** Storing fails exactly when there is no collection and nothing to size it by. */
  lemma StoreFails(hash: string -> string, c: Option<Collection>, es: seq<Embedded>)
    ensures Store(hash, c, es).Failure? <==> c.None? && es == []
  {
  }

  /** An existing collection keeps its size and its points outside the batch's ids. */
  lemma StoreKeepsExisting(hash: string -> string, col: Collection, es: seq<Embedded>, id: string)
    requires id in col.points && id !in Ids(Batch(hash, es))
    ensures var r := Store(hash, Some(col), es);
      r.Success? && r.value.vectorSize == col.vectorSize && r.value.points[id] == col.points[id]
  {
    UpsertAllOutside(col.points, Batch(hash, es), id);
  }

  /** A new collection is sized by the longest vector of the batch that creates it. */
  lemma StoreSizesNewCollection(hash: string -> string, es: seq<Embedded>)
    requires es != []
    ensures var r := Store(hash, None, es);
      && r.Success?
      && (forall i :: 0 <= i < |es| ==> |es[i].vector| <= r.value.vectorSize)
      && (exists i :: 0 <= i < |es| && |es[i].vector| == r.value.vectorSize)
  {
  }

  /** Storing the same batch a second time changes nothing. */
  lemma StoreTwice(hash: string -> string, c: Option<Collection>, es: seq<Embedded>)
    requires Store(hash, c, es).Success?
    ensures Store(hash, Some(Store(hash, c, es).value), es) == Store(hash, c, es)
  {
    var points := if c.Some? then c.value.points else map[];
    UpsertAllIdempotent(points, Batch(hash, es));
  }

  /** The foreign parts of the pipeline: loaders, splitter, embedder and digest. */
  datatype Pipeline = Pipeline(
    loaders: map<string, Loader>,
    load: (Loader, FilePath) -> seq<Document>,
    split: seq<Document> -> seq<Document>,
    encode: seq<string> -> seq<Vector>,
    hash: string -> string)

  /** `embed_documents_with_progress` before storing: chunk texts embedded and
      zipped back with their chunks. */
  function Embed(encode: seq<string> -> seq<Vector>, chunks: seq<Document>): seq<Embedded> {
    Zip(encode(Texts(chunks)), chunks)
  }

  /** Each chunk is paired with the vector computed at its own position. */
  lemma EmbedAligned(encode: seq<string> -> seq<Vector>, chunks: seq<Document>, i: nat)
    requires |encode(Texts(chunks))| == |chunks| && i < |chunks|
    ensures var es := Embed(encode, chunks);
      |es| == |chunks| && es[i].doc == chunks[i] && es[i].vector == encode(Texts(chunks))[i]
  {
  }

  /** The batch a file produces, or None when its loader yields nothing. */
  function FileBatch(p: Pipeline, path: FilePath): Option<seq<Embedded>> {
    var docs := LoadOneDoc(path, p.loaders, p.load);
    if docs == [] then None else Some(Embed(p.encode, p.split(docs)))
  }

  /** `process_one_doc` on the collection, given what the file yields: nothing
      loaded leaves the collection as it is, otherwise the batch is stored. */
  function StoreFile(hash: string -> string, c: Option<Collection>, fb: Option<seq<Embedded>>): Result<Option<Collection>> {
    match fb
    case None => Success(c)
    case Some(es) =>
      match Store(hash, c, es)
      case Failure(e) => Failure(e)
      case Success(c2) => Success(Some(c2))
  }

  /** A file whose loader yields nothing leaves the collection unchanged. */
  lemma NothingLoadedNothingStored(p: Pipeline, c: Option<Collection>, path: FilePath)
    requires LoadOneDoc(path, p.loaders, p.load) == []
    ensures StoreFile(p.hash, c, FileBatch(p, path)) == Success(c)
  {
  }

  /** The collection and outcome after a sequence of files. */
  datatype Run = Run(state: Option<Collection>, outcome: Outcome)

  /** Files processed one after the other, each given by what it yields; the
      first failure ends the run. */
  function IngestBatches(hash: string -> string, c: Option<Collection>, fbs: seq<Option<seq<Embedded>>>): Run
    decreases |fbs|
  {
    if fbs == [] then Run(c, Pass)
    else
      match StoreFile(hash, c, fbs[0])
      case Failure(e) => Run(c, Fail(e))
      case Success(c2) => IngestBatches(hash, c2, fbs[1..])
  }

  /** What each walked file yields, in order. */
  function FileBatches(p: Pipeline, paths: seq<FilePath>): (fbs: seq<Option<seq<Embedded>>>)
    ensures |fbs| == |paths|
    decreases |paths|
  {
    if paths == [] then [] else [FileBatch(p, paths[0])] + FileBatches(p, paths[1..])
  }

  /** The `i`th entry is what the `i`th file yields. */
  lemma {:induction false} FileBatchesAt(p: Pipeline, paths: seq<FilePath>, i: nat)
    requires i < |paths|
    ensures FileBatches(p, paths)[i] == FileBatch(p, paths[i])
    decreases |paths|
  {
    if i > 0 {
      FileBatchesAt(p, paths[1..], i - 1);
    }
  }

  function IngestFiles(p: Pipeline, c: Option<Collection>, paths: seq<FilePath>): Run {
    IngestBatches(p.hash, c, FileBatches(p, paths))
  }

  /** One step of a run from position `i`. */
  lemma IngestBatchesStep(hash: string -> string, c: Option<Collection>, fbs: seq<Option<seq<Embedded>>>, i: nat)
    requires i < |fbs|
    ensures var r := StoreFile(hash, c, fbs[i]);
      IngestBatches(hash, c, fbs[i..]) ==
        if r.Failure? then Run(c, Fail(r.error)) else IngestBatches(hash, r.value, fbs[i + 1..])
  {
    assert fbs[i..][0] == fbs[i] && fbs[i..][1..] == fbs[i + 1..];
  }

  /** All points the files' batches upsert, in order. */
  function AllBatches(hash: string -> string, fbs: seq<Option<seq<Embedded>>>): seq<(string, Point)>
    decreases |fbs|
  {
    if fbs == [] then []
    else
      var first := match fbs[0] case None => [] case Some(es) => Batch(hash, es);
      first + AllBatches(hash, fbs[1..])
  }

  function PointsOf(c: Option<Collection>): map<string, Point> {
    if c.Some? then c.value.points else map[]
  }

  /** Into an existing collection, ingestion never fails: it upserts every batch in turn. */
  lemma {:induction false} IngestIntoExisting(hash: string -> string, col: Collection, fbs: seq<Option<seq<Embedded>>>)
    ensures IngestBatches(hash, Some(col), fbs)
      == Run(Some(Collection(col.vectorSize, UpsertAll(col.points, AllBatches(hash, fbs)))), Pass)
    decreases |fbs|
  {
    if fbs == [] {
      assert UpsertAll(col.points, []) == col.points;
      assert Collection(col.vectorSize, col.points) == col;
      assert IngestBatches(hash, Some(col), fbs) == Run(Some(col), Pass);
      assert AllBatches(hash, fbs) == [];
    } else {
      var rest := AllBatches(hash, fbs[1..]);
      match fbs[0]
      case None =>
        assert IngestBatches(hash, Some(col), fbs) == IngestBatches(hash, Some(col), fbs[1..]);
        IngestIntoExisting(hash, col, fbs[1..]);
        assert AllBatches(hash, fbs) == [] + rest == rest;
      case Some(es) =>
        var b := Batch(hash, es);
        var col2 := Collection(col.vectorSize, UpsertAll(col.points, b));
        assert StoreFile(hash, Some(col), fbs[0]) == Success(Some(col2));
        assert IngestBatches(hash, Some(col), fbs) == IngestBatches(hash, Some(col2), fbs[1..]);
        IngestIntoExisting(hash, col2, fbs[1..]);
        UpsertAllAppend(col.points, b, rest);
        assert AllBatches(hash, fbs) == b + rest;
    }
  }

  /** A successful run upserts every batch in turn, and keeps an existing
      collection's size; it ends without a collection only if it began
      without one and no file yielded any document. */
  lemma {:induction false} IngestResult(hash: string -> string, c: Option<Collection>, fbs: seq<Option<seq<Embedded>>>)
    ensures var r := IngestBatches(hash, c, fbs);
      r.outcome.Pass? ==>
        && PointsOf(r.state) == UpsertAll(PointsOf(c), AllBatches(hash, fbs))
        && (c.Some? ==> r.state.Some? && r.state.value.vectorSize == c.value.vectorSize)
        && (r.state.None? ==> c.None?)
    decreases |fbs|
  {
    if c.Some? {
      IngestIntoExisting(hash, c.value, fbs);
    } else if fbs != [] {
      var rest := AllBatches(hash, fbs[1..]);
      match fbs[0]
      case None =>
        IngestResult(hash, c, fbs[1..]);
        assert AllBatches(hash, fbs) == [] + rest == rest;
      case Some(es) =>
        if es != [] {
          var b := Batch(hash, es);
          var col2 := Collection(MaxVectorLen(es), UpsertAll(map[], b));
          IngestIntoExisting(hash, col2, fbs[1..]);
          UpsertAllAppend(map[], b, rest);
          assert AllBatches(hash, fbs) == b + rest;
        }
    }
  }

  /** Ingesting the same files again after a successful run changes nothing. */
  lemma IngestIdempotent(p: Pipeline, c: Option<Collection>, paths: seq<FilePath>)
    requires IngestFiles(p, c, paths).outcome.Pass?
    ensures var r := IngestFiles(p, c, paths);
      IngestFiles(p, r.state, paths) == r
  {
    var fbs := FileBatches(p, paths);
    var r := IngestBatches(p.hash, c, fbs);
    IngestResult(p.hash, c, fbs);
    if r.state.Some? {
      IngestIntoExisting(p.hash, r.state.value, fbs);
      UpsertAllIdempotent(PointsOf(c), AllBatches(p.hash, fbs));
    }
  }

  /** The collection called `name` in a store, if any. */
  function CollectionIn(cols: map<string, Collection>, name: string): Option<Collection> {
    if name in cols then Some(cols[name]) else None
  }

  /** The lock a worker is handed. */
  datatype LockId = LockId(id: nat)

  /** The Qdrant database at `db_dir`: named collections, updated in place. */
  class Database {
    var collections: map<string, Collection>

    constructor (collections: map<string, Collection>)
      ensures this.collections == collections
    {
      this.collections := collections;
    }
  }

  /** `casalioy.ingest.Ingester`. */
  class Ingester {
    const db: Database
    const collection: string
    const verbose: bool
    const fileLoaders: map<string, Loader>
    const load: (Loader, FilePath) -> seq<Document>
    const hash: string -> string
    var lock: Option<LockId>
    var textSplitter: Option<seq<Document> -> seq<Document>>
    var encodeFun: Option<seq<string> -> seq<Vector>>

    /** `Ingester.__init__`: no lock, splitter or embedder yet (`main` uses the collection "test"). */
    constructor (db: Database, collection: string, verbose: bool, load: (Loader, FilePath) -> seq<Document>, hash: string -> string)
      ensures this.db == db && this.collection == collection && this.verbose == verbose
      ensures fileLoaders == FileLoaders && this.load == load && this.hash == hash
      ensures lock == None && textSplitter == None && encodeFun == None
    {
      this.db := db;
      this.collection := collection;
      this.verbose := verbose;
      fileLoaders := FileLoaders;
      this.load := load;
      this.hash := hash;
      lock := None;
      textSplitter := None;
      encodeFun := None;
    }

    /** The ingester's own collection, if the database has it. */
    function Current(): Option<Collection>
      reads db
    {
      CollectionIn(db.collections, collection)
    }

    /** `store_embeddings`: create the collection if it is missing, sized by the
        longest vector, then upsert the batch. No other collection changes. */
    method StoreEmbeddings(embeddings: seq<Embedded>) returns (res: Outcome)
      modifies db
      ensures var r := Store(hash, old(Current()), embeddings);
        && (r.Failure? ==> res == Fail(r.error) && db.collections == old(db.collections))
        && (r.Success? ==> res == Pass && db.collections == old(db.collections)[collection := r.value])
    {
      if collection !in db.collections {
        if embeddings == [] {
          return Fail(MaxOfEmpty);
        }
        var vectorSize := MaxVectorLen(embeddings);
        db.collections := db.collections[collection := Collection(vectorSize, map[])];
      }
      var batch := Batch(hash, embeddings);
      var existing := db.collections[collection];
      db.collections := db.collections[collection := Collection(existing.vectorSize, UpsertAll(existing.points, batch))];
      res := Pass;
    }

    /** `embed_documents_with_progress`: embed the chunk texts, pair each vector
        with its chunk, and store the pairs. */
    method EmbedDocumentsWithProgress(embeddingFunction: seq<string> -> seq<Vector>, documents: seq<Document>) returns (res: Outcome)
      modifies db
      ensures var r := Store(hash, old(Current()), Embed(embeddingFunction, documents));
        && (r.Failure? ==> res == Fail(r.error) && db.collections == old(db.collections))
        && (r.Success? ==> res == Pass && db.collections == old(db.collections)[collection := r.value])
    {
      var embeddings := embeddingFunction(Texts(documents));
      res := StoreEmbeddings(Zip(embeddings, documents));
    }

    /** `process_one_doc`: keep the lock, load the file, and when it yields
        documents split, embed and store them. */
    method ProcessOneDoc(lock: LockId, filepath: FilePath) returns (res: Outcome)
      requires textSplitter.Some? && encodeFun.Some?
      modifies this`lock, db
      ensures this.lock == Some(lock)
      ensures var r := StoreFile(hash, old(Current()), FileBatch(Pipeline(fileLoaders, load, textSplitter.value, encodeFun.value, hash), filepath));
        && (r.Failure? ==> res == Fail(r.error) && db.collections == old(db.collections))
        && (r.Success? ==> res == Pass && Current() == r.value)
      ensures db.collections - {collection} == old(db.collections) - {collection}
    {
      this.lock := Some(lock);
      var document := LoadOneDoc(filepath, fileLoaders, load);
      if document == [] {
        return Pass;
      }
      var splitDocument := textSplitter.value(document);
      res := EmbedDocumentsWithProgress(encodeFun.value, splitDocument);
    }

    /** `process_one_doc` on the `i`th walked file, whose batch is `fbs[i]`. */
    method ProcessNth(paths: seq<FilePath>, i: nat, ghost fbs: seq<Option<seq<Embedded>>>) returns (res: Outcome)
      requires textSplitter.Some? && encodeFun.Some? && i < |paths|
      requires fbs == FileBatches(Pipeline(fileLoaders, load, textSplitter.value, encodeFun.value, hash), paths)
      modifies this`lock, db
      ensures var r := StoreFile(hash, old(Current()), fbs[i]);
        && (r.Failure? ==> res == Fail(r.error) && db.collections == old(db.collections))
        && (r.Success? ==> res == Pass && Current() == r.value)
      ensures db.collections - {collection} == old(db.collections) - {collection}
    {
      FileBatchesAt(Pipeline(fileLoaders, load, textSplitter.value, encodeFun.value, hash), paths, i);
      res := ProcessOneDoc(LockId(0), paths[i]);
    }

    /** `ingest_from_directory`: set the splitter and embedder, then process the
        walked files one after the other; a failure ends the run. Only the
        ingester's own collection changes. */
    method IngestFromDirectory(paths: seq<FilePath>, splitter: seq<Document> -> seq<Document>, encode: seq<string> -> seq<Vector>)
      returns (res: Outcome)
      modifies this, db
      ensures textSplitter == Some(splitter) && encodeFun == Some(encode)
      ensures var r := IngestFiles(Pipeline(fileLoaders, load, splitter, encode, hash), old(Current()), paths);
        res == r.outcome && Current() == r.state
      ensures db.collections - {collection} == old(db.collections) - {collection}
    {
      textSplitter := Some(splitter);
      encodeFun := Some(encode);
      ghost var p := Pipeline(fileLoaders, load, splitter, encode, hash);
      ghost var fbs := FileBatches(p, paths);
      var i := 0;
      while i < |paths|
        invariant 0 <= i <= |paths|
        invariant textSplitter == Some(splitter) && encodeFun == Some(encode)
        invariant IngestBatches(hash, old(Current()), fbs) == IngestBatches(hash, Current(), fbs[i..])
        invariant db.collections - {collection} == old(db.collections) - {collection}
      {
        ghost var c := Current();
        ghost var stored := StoreFile(hash, c, fbs[i]);
        IngestBatchesStep(hash, c, fbs, i);
        var r := ProcessNth(paths, i, fbs);
        if r.Fail? {
          assert IngestBatches(hash, c, fbs[i..]) == Run(c, Fail(stored.error));
          return r;
        }
        assert IngestBatches(hash, c, fbs[i..]) == IngestBatches(hash, stored.value, fbs[i + 1..]);
        i := i + 1;
      }
      res := Pass;
    }
  }

  /** The decision `main` takes about an existing database. */
  datatype CleanDb = CleanDb(asked: bool, delete: bool)

  /** `main`'s test: with an existing database, a `cleandb` that lower-cases to
      "y" deletes it; exactly "n" asks the user and deletes on an answer that
      lower-cases to "y"; anything else keeps it. */
  function CleanDbDecision(dbExists: bool, cleandb: string, answer: string): CleanDb {
    if !dbExists then CleanDb(false, false)
    else if ToLower(cleandb) == "y" then CleanDb(false, true)
    else if cleandb == "n" then CleanDb(true, ToLower(answer) == "y")
    else CleanDb(false, false)
  }

  /** The rule in plain terms: deletion takes "y" or "Y", or "n" and a "y" or
      "Y" answer; the user is asked only for exactly "n" (so "N" keeps the
      database without asking). */
  lemma CleanDbRule(dbExists: bool, cleandb: string, answer: string)
    ensures var d := CleanDbDecision(dbExists, cleandb, answer);
      && (d.delete <==> dbExists && (cleandb == "y" || cleandb == "Y" || (cleandb == "n" && (answer == "y" || answer == "Y"))))
      && (d.asked <==> dbExists && cleandb == "n")
  {
    LowerIsY(cleandb);
    LowerIsY(answer);
  }

  /** `main`: settle the existing database (deleting it empties the store),
      then ingest the walked files. */
  method IngestMain(ingester: Ingester, dbExists: bool, cleandb: string, answer: string, paths: seq<FilePath>,
                    splitter: seq<Document> -> seq<Document>, encode: seq<string> -> seq<Vector>)
    returns (res: Outcome)
    modifies ingester, ingester.db
    ensures var start := if CleanDbDecision(dbExists, cleandb, answer).delete then map[] else old(ingester.db.collections);
      var r := IngestFiles(Pipeline(ingester.fileLoaders, ingester.load, splitter, encode, ingester.hash), CollectionIn(start, ingester.collection), paths);
      && res == r.outcome && ingester.Current() == r.state
      && ingester.db.collections - {ingester.collection} == start - {ingester.collection}
  {
    var decision := CleanDbDecision(dbExists, cleandb, answer);
    if decision.delete {
      ingester.db.collections := map[];
    }
    res := ingester.IngestFromDirectory(paths, splitter, encode);
  }
}
