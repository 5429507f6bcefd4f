/** The offline indexer `indexDocument`: list the documents folder, keep the
    `.pdf` names, load each file (a failing file is skipped and the loop goes
    on), and configure the text splitter. The directory listing and
    `PDFLoader.load` are parameters; splitting, embedding and the upsert are
    library calls and are not modelled. */
module Indexer {
  import opened Outcomes
  import opened Strings

  const DocsPath := "./who"
  const PdfSuffix := ".pdf"

  /** A LangChain document produced by the PDF loader. */
  datatype Document = Document(pageContent: string, source: string)

  /** `RecursiveCharacterTextSplitter` options. */
  datatype SplitterConfig = SplitterConfig(chunkSize: nat, chunkOverlap: nat)

  const Splitter := SplitterConfig(1000, 200)

  /** The configured overlap is smaller than the chunk size. */
  predicate ValidSplitter(c: SplitterConfig) {
    c.chunkOverlap < c.chunkSize
  }

  lemma SplitterIsValid()
    ensures ValidSplitter(Splitter)
  {
  }

  /** The console lines of the loading section. */
  datatype LogLine =
    | Starting(count: nat, dir: string)
    | Loaded(file: string)
    | Skipped(file: string, error: string)
    | AllLoaded

  predicate IsPdf(name: string) {
    EndsWith(name, PdfSuffix)
  }

  /** `fileNames`: the entries ending in `.pdf`, in listing order. */
  function PdfNames(names: seq<string>): (r: seq<string>)
    ensures |r| <= |names|
    ensures forall x :: x in r <==> x in names && IsPdf(x)
  {
    if names == [] then []
    else (if IsPdf(names[0]) then [names[0]] else []) + PdfNames(names[1..])
  }

  /** Filtering distributes over concatenation, so the order of the listing
      is kept. */
  lemma {:induction false} PdfNamesAppend(a: seq<string>, b: seq<string>)
    ensures PdfNames(a + b) == PdfNames(a) + PdfNames(b)
  {
    if a == [] {
      assert a + b == b;
    } else {
      assert (a + b)[0] == a[0];
      assert (a + b)[1..] == a[1..] + b;
      PdfNamesAppend(a[1..], b);
    }
  }

  /** A single entry is kept exactly when it ends in `.pdf`. */
  lemma PdfNamesSingle(name: string)
    ensures PdfNames([name]) == if IsPdf(name) then [name] else []
  {
    assert [name][1..] == [];
  }

  /** `path.join('./who', file)` for a directory entry, which never contains
      a separator and is never `.` or `..`. */
  function FilePath(file: string): string {
    "who/" + file
  }

  /** The docs a load contributes: all of them, or none when it failed. */
  function DocsOf(loaded: Outcome<seq<Document>>): seq<Document> {
    if loaded.Ok? then loaded.value else []
  }

  /** `rawDocs` after the loop over `files`. */
  function LoadedDocs(files: seq<string>, load: string -> Outcome<seq<Document>>): seq<Document> {
    if files == [] then []
    else LoadedDocs(files[..|files| - 1], load) + DocsOf(load(FilePath(files[|files| - 1])))
  }

  /** The console line for one attempted file. */
  function FileLog(file: string, loaded: Outcome<seq<Document>>): LogLine {
    if loaded.Ok? then Loaded(file) else Skipped(file, loaded.message)
  }

  /** Loading distributes over concatenation: each file's docs land in file
      order, whatever happened to the files before it. */
  lemma {:induction false} LoadedDocsAppend(a: seq<string>, b: seq<string>, load: string -> Outcome<seq<Document>>)
    ensures LoadedDocs(a + b, load) == LoadedDocs(a, load) + LoadedDocs(b, load)
    decreases |b|
  {
    if b == [] {
      assert a + b == a;
    } else {
      var c := a + b;
      assert c[..|c| - 1] == a + b[..|b| - 1];
      assert c[|c| - 1] == b[|b| - 1];
      LoadedDocsAppend(a, b[..|b| - 1], load);
    }
  }

  /** A failing file contributes nothing and does not stop the files after
      it. */
  lemma {:induction false} FailedFileSkipped(before: seq<string>, file: string, after: seq<string>, load: string -> Outcome<seq<Document>>)
    requires load(FilePath(file)).Err?
    ensures LoadedDocs(before + [file] + after, load) == LoadedDocs(before, load) + LoadedDocs(after, load)
  {
    var c := before + [file];
    LoadedDocsAppend(c, after, load);
    assert c[..|c| - 1] == before;
    assert LoadedDocs(c, load) == LoadedDocs(before, load) + [];
  }

  /** A file that loads contributes exactly its docs, in place. */
  lemma {:induction false} LoadedFileKept(before: seq<string>, file: string, after: seq<string>, load: string -> Outcome<seq<Document>>)
    requires load(FilePath(file)).Ok?
    ensures LoadedDocs(before + [file] + after, load)
         == LoadedDocs(before, load) + load(FilePath(file)).value + LoadedDocs(after, load)
  {
    LoadedDocsAppend(before + [file], after, load);
    assert (before + [file])[..|before|] == before;
  }

  /** If every load fails (or there are no files), `rawDocs` is empty. */
  lemma {:induction false} AllFailedNoDocs(files: seq<string>, load: string -> Outcome<seq<Document>>)
    requires forall i :: 0 <= i < |files| ==> load(FilePath(files[i])).Err?
    ensures LoadedDocs(files, load) == []
  {
    if files != [] {
      var init := files[..|files| - 1];
      assert forall i :: 0 <= i < |init| ==> init[i] == files[i];
      AllFailedNoDocs(init, load);
    }
  }

  /** Every doc in `rawDocs` came from a file whose load succeeded. */
  lemma {:induction false} DocsComeFromLoadedFiles(files: seq<string>, load: string -> Outcome<seq<Document>>, d: Document)
    requires d in LoadedDocs(files, load)
    ensures exists i :: 0 <= i < |files| && load(FilePath(files[i])).Ok? && d in load(FilePath(files[i])).value
  {
    var n := |files| - 1;
    var init := files[..n];
    if d in LoadedDocs(init, load) {
      DocsComeFromLoadedFiles(init, load, d);
      var i :| 0 <= i < |init| && load(FilePath(init[i])).Ok? && d in load(FilePath(init[i])).value;
      assert files[i] == init[i];
    } else {
      assert d in DocsOf(load(FilePath(files[n])));
    }
  }

  /** The `for (const file of fileNames)` loop: each file is attempted once, in
      order; successes are concatenated into `rawDocs`, failures are logged
      and skipped, and no error escapes. */
  method LoadAll(files: seq<string>, load: string -> Outcome<seq<Document>>)
    returns (rawDocs: seq<Document>, log: seq<LogLine>)
    ensures rawDocs == LoadedDocs(files, load)
    ensures |log| == |files|
    ensures forall i :: 0 <= i < |files| ==> log[i] == FileLog(files[i], load(FilePath(files[i])))
  {
    rawDocs := [];
    log := [];
    var i := 0;
    while i < |files|
      invariant 0 <= i <= |files|
      invariant rawDocs == LoadedDocs(files[..i], load)
      invariant |log| == i
      invariant forall k :: 0 <= k < i ==> log[k] == FileLog(files[k], load(FilePath(files[k])))
    {
      var file := files[i];
      var docs := load(FilePath(file));
      assert files[..i + 1][..i] == files[..i];
      if docs.Ok? {
        rawDocs := rawDocs + docs.value;
        log := log + [Loaded(file)];
      } else {
        log := log + [Skipped(file, docs.message)];
      }
      i := i + 1;
    }
    assert files[..i] == files;
  }

  /** What the loading section leaves for the splitter. */
  datatype Indexing = Indexing(fileNames: seq<string>, rawDocs: seq<Document>, splitter: SplitterConfig, log: seq<LogLine>)

  /** `indexDocument` up to the splitter: a failed directory read escapes;
      otherwise the `.pdf` entries are loaded in order. */
  method IndexDocument(listing: Outcome<seq<string>>, load: string -> Outcome<seq<Document>>)
    returns (result: Outcome<Indexing>)
    ensures listing.Err? ==> result == Err(listing.message)
    ensures listing.Ok? ==> result.Ok?
    ensures result.Ok? ==>
      var names := PdfNames(listing.value);
      && result.value.fileNames == names
      && result.value.rawDocs == LoadedDocs(names, load)
      && result.value.splitter == Splitter
      && |result.value.log| == |names| + 2
      && result.value.log[0] == Starting(|names|, DocsPath)
      && result.value.log[|names| + 1] == AllLoaded
      && (forall i :: 0 <= i < |names| ==> result.value.log[i + 1] == FileLog(names[i], load(FilePath(names[i]))))
  {
    if listing.Err? {
      return Err(listing.message);
    }
    var fileNames := PdfNames(listing.value);
    var rawDocs, fileLog := LoadAll(fileNames, load);
    var log := [Starting(|fileNames|, DocsPath)] + fileLog + [AllLoaded];
    result := Ok(Indexing(fileNames, rawDocs, Splitter, log));
  }
}
