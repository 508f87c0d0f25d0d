/** The first ingestion script, ingest.py at the top of the repository: a
    chain of `endswith` tests picks one of five loaders and any other file
    aborts the run; every file is loaded before anything is split or stored. */
module LegacyIngest {
  import opened Wrappers
  import opened Text
  import opened Collaborators
  import Ingest

  /** `load_one_doc`'s chain: the first ending that matches picks the loader. */
  function LoaderFor(filepath: string): Option<Ingest.Loader> {
    if EndsWith(filepath, ".txt") then Some(Ingest.TextLoader)
    else if EndsWith(filepath, ".pdf") then Some(Ingest.PDFMinerLoader)
    else if EndsWith(filepath, ".csv") then Some(Ingest.CSVLoader)
    else if EndsWith(filepath, ".epub") then Some(Ingest.EPubLoader)
    else if EndsWith(filepath, ".html") then Some(Ingest.HTMLLoader)
    else None
  }

  /** `filepath.split('.')[-1]`: what the error message names as the format. */
  function LastPiece(filepath: string): string {
    var parts := Split(filepath, '.');
    parts[|parts| - 1]
  }

  /** The `ValueError` for a file no loader handles. */
  function Unhandled(filepath: string): string {
    "Unhandled file format: ." + LastPiece(filepath) + " in " + filepath
  }

  /** `load_one_doc`: the chosen loader's documents, or the error. */
  function LoadOneDoc(filepath: string, load: (Ingest.Loader, string) -> seq<Document>): Result<seq<Document>> {
    match LoaderFor(filepath)
    case Some(loader) => Success(load(loader, filepath))
    case None => Failure(Unhandled(filepath))
  }

  /** The format named in the error is everything after the last dot of the path. */
  lemma UnhandledNamesExtension(filepath: string)
    ensures LastPiece(filepath) == filepath[LastIndexOf(filepath, '.') + 1..]
  {
    SplitLast(filepath, '.');
  }

  /** A path without a dot is named whole. */
  lemma UnhandledNamesWholePath(filepath: string)
    requires '.' !in filepath
    ensures LastPiece(filepath) == filepath
  {
    UnhandledNamesExtension(filepath);
    LastIndexOfAbsent(filepath, '.');
  }

  /** For a name `stem.ext` whose extensions carry no dot, ending in `.e` means
      having extension `e`. */
  lemma EndsWithDotExt(stem: string, ext: string, e: string)
    requires '.' !in ext && '.' !in e
    ensures EndsWith(stem + "." + ext, "." + e) <==> ext == e
  {
    var name := stem + "." + ext;
    var n := |name|;
    forall k | n - |ext| - 1 < k < n ensures name[k] != '.' {
      assert name[k] == ext[k - (n - |ext|)];
    }
    LastIndexOfIs(name, '.', n - |ext| - 1);
    if EndsWith(name, "." + e) {
      var suf := name[n - |e| - 1..];
      forall k | n - |e| - 1 < k < n ensures name[k] != '.' {
        assert name[k] == suf[k - (n - |e| - 1)] == e[k - (n - |e|)];
      }
      LastIndexOfIs(name, '.', n - |e| - 1);
      assert suf[1..] == ext;
    }
  }

  /** The chain is the extension table of casalioy/ingest.py restricted to
      txt, pdf, csv, epub and html (the same loader for each), with no loader
      for any other extension. */
  lemma LoaderForExtension(stem: string, ext: string)
    requires '.' !in ext
    ensures LoaderFor(stem + "." + ext) ==
      if ext == "txt" then Some(Ingest.TextLoader)
      else if ext == "pdf" then Some(Ingest.PDFMinerLoader)
      else if ext == "csv" then Some(Ingest.CSVLoader)
      else if ext == "epub" then Some(Ingest.EPubLoader)
      else if ext == "html" then Some(Ingest.HTMLLoader)
      else None
  {
    EndsWithDotExt(stem, ext, "txt");
    assert "." + "txt" == ".txt";
    EndsWithDotExt(stem, ext, "pdf");
    assert "." + "pdf" == ".pdf";
    EndsWithDotExt(stem, ext, "csv");
    assert "." + "csv" == ".csv";
    EndsWithDotExt(stem, ext, "epub");
    assert "." + "epub" == ".epub";
    EndsWithDotExt(stem, ext, "html");
    assert "." + "html" == ".html";
  }

  /** The documents of the first `n` files, or the error of the first file
      among them that no loader handles. */
  function LoadAllSpec(paths: seq<string>, load: (Ingest.Loader, string) -> seq<Document>, n: nat): Result<seq<Document>>
    requires n <= |paths|
  {
    if n == 0 then Success([])
    else
      match LoadAllSpec(paths, load, n - 1)
      case Failure(e) => Failure(e)
      case Success(docs) =>
        match LoadOneDoc(paths[n - 1], load)
        case Failure(e) => Failure(e)
        case Success(more) => Success(docs + more)
  }

  /** Loading fails exactly when some file has no loader, and then with the
      error of the first such file. */
  lemma {:induction false} LoadAllFails(paths: seq<string>, load: (Ingest.Loader, string) -> seq<Document>, n: nat)
    requires n <= |paths|
    ensures LoadAllSpec(paths, load, n).Failure? <==> exists i :: 0 <= i < n && LoaderFor(paths[i]).None?
    ensures LoadAllSpec(paths, load, n).Failure? ==>
      exists i :: 0 <= i < n && LoaderFor(paths[i]).None? && LoadAllSpec(paths, load, n).error == Unhandled(paths[i])
        && forall k :: 0 <= k < i ==> LoaderFor(paths[k]).Some?
  {
    if n > 0 {
      LoadAllFails(paths, load, n - 1);
    }
  }

  /** `main`'s loading loop: `documents += load_one_doc(...)` for every file;
      the first unhandled file ends it. */
  method LoadAll(paths: seq<string>, load: (Ingest.Loader, string) -> seq<Document>) returns (r: Result<seq<Document>>)
    ensures r == LoadAllSpec(paths, load, |paths|)
  {
    var documents := [];
    var i := 0;
    while i < |paths|
      invariant 0 <= i <= |paths|
      invariant LoadAllSpec(paths, load, i) == Success(documents)
    {
      var loaded := LoadOneDoc(paths[i], load);
      if loaded.Failure? {
        assert LoadAllSpec(paths, load, i + 1) == Failure(loaded.error);
        r := Failure(loaded.error);
        LoadAllStops(paths, load, i + 1);
        return;
      }
      documents := documents + loaded.value;
      i := i + 1;
    }
    r := Success(documents);
  }

  /** Once loading has failed, later files change nothing. */
  lemma {:induction false} LoadAllStops(paths: seq<string>, load: (Ingest.Loader, string) -> seq<Document>, n: nat)
    requires 0 < n <= |paths| && LoadAllSpec(paths, load, n).Failure?
    ensures LoadAllSpec(paths, load, |paths|) == LoadAllSpec(paths, load, n)
    decreases |paths| - n
  {
    if n < |paths| {
      LoadAllStops(paths, load, n + 1);
    }
  }

  /** The splitter settings and the collection name `main` uses. */
  const ChunkSize := 500
  const ChunkOverlap := 50
  const CollectionName := "test"

  /** What `main` hands to `Qdrant.from_documents`: the chunks and the collection. */
  datatype Indexing = Indexing(chunks: seq<Document>, collection: string, loaded: nat)

  /** `main`: settle the existing database, load every file, then split all the
      documents and index the chunks. A failed load leaves nothing indexed,
      though a database it was told to delete is already gone. */
  method IngestAll(dbExists: bool, cleandb: string, answer: string, paths: seq<string>,
                   load: (Ingest.Loader, string) -> seq<Document>, split: (seq<Document>, nat, nat) -> seq<Document>)
    returns (deleted: bool, r: Result<Indexing>)
    ensures deleted == Ingest.CleanDbDecision(dbExists, cleandb, answer).delete
    ensures var loaded := LoadAllSpec(paths, load, |paths|);
      && (loaded.Failure? ==> r == Failure(loaded.error))
      && (loaded.Success? ==> r == Success(Indexing(split(loaded.value, ChunkSize, ChunkOverlap), CollectionName, |loaded.value|)))
  {
    deleted := Ingest.CleanDbDecision(dbExists, cleandb, answer).delete;
    var documents := LoadAll(paths, load);
    if documents.Failure? {
      return deleted, Failure(documents.error);
    }
    var texts := split(documents.value, ChunkSize, ChunkOverlap);
    r := Success(Indexing(texts, CollectionName, |documents.value|));
  }
}
