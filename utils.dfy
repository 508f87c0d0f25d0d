/** casalioy/utils.py: the escape applied before text reaches the HTML
    formatter, and the path arithmetic that decides whether a model named on
    the command line is already on disk and, if not, what to download. */
module Utils {
  import opened Wrappers
  import opened Text

  const FormFeed := '\U{000C}'
  const Backspace := '\U{0008}'

  /** What the escape does to one character. */
  function EscapeChar(c: char): char {
    if c == FormFeed then ' ' else if c == Backspace then '\\' else c
  }

  /** `escape_one`: replace form feeds by spaces, then backspaces by backslashes. */
  function EscapeOne(v: string): (r: string)
    ensures |r| == |v|
    ensures forall i :: 0 <= i < |v| ==> r[i] == EscapeChar(v[i])
  {
    ReplaceChar(ReplaceChar(v, FormFeed, ' '), Backspace, '\\')
  }

  /** An escaped string holds neither control character. */
  lemma EscapeOneClean(v: string)
    ensures FormFeed !in EscapeOne(v) && Backspace !in EscapeOne(v)
  {
    var r := EscapeOne(v);
    forall i | 0 <= i < |r| ensures r[i] != FormFeed && r[i] != Backspace {
      assert r[i] == EscapeChar(v[i]);
    }
  }

  /** Escaping twice is escaping once. */
  lemma EscapeOneIdempotent(v: string)
    ensures EscapeOne(EscapeOne(v)) == EscapeOne(v)
  {
    var r := EscapeOne(v);
    var rr := EscapeOne(r);
    forall i | 0 <= i < |v| ensures rr[i] == r[i] {
      assert rr[i] == EscapeChar(EscapeChar(v[i]));
    }
  }

  /** A string without either control character is left as it is. */
  lemma EscapeOneKeepsClean(v: string)
    requires FormFeed !in v && Backspace !in v
    ensures EscapeOne(v) == v
  {
    var r := EscapeOne(v);
    forall i | 0 <= i < |v| ensures r[i] == v[i] {
      assert v[i] != FormFeed && v[i] != Backspace;
    }
  }

  /** Every value of a keyword-argument dict escaped. */
  function EscapeMap(m: map<string, string>): map<string, string> {
    map k | k in m :: EscapeOne(m[k])
  }

  /** After the escape no value of the dict holds a control character, and
      the keys are the same. */
  lemma EscapeMapClean(m: map<string, string>)
    ensures EscapeMap(m).Keys == m.Keys
    ensures forall k :: k in EscapeMap(m) ==> FormFeed !in EscapeMap(m)[k] && Backspace !in EscapeMap(m)[k]
  {
    forall k | k in EscapeMap(m) ensures FormFeed !in EscapeMap(m)[k] && Backspace !in EscapeMap(m)[k] {
      EscapeOneClean(m[k]);
    }
  }

  /** A keyword-argument dict, as the Python object that holds the entries. */
  class KwArgs {
    var entries: map<string, string>

    constructor (entries: map<string, string>)
      ensures this.entries == entries
    {
      this.entries := entries;
    }
  }

  /** `escape_for_html`: overwrite each value of the dict it is given with its
      escaped form, one entry at a time, and return the escaped text. */
  method EscapeForHtml(text: string, kwargs: KwArgs) returns (r: string)
    modifies kwargs
    ensures r == EscapeOne(text)
    ensures kwargs.entries == EscapeMap(old(kwargs.entries))
  {
    var todo := kwargs.entries.Keys;
    while todo != {}
      invariant kwargs.entries.Keys == old(kwargs.entries).Keys
      invariant todo <= kwargs.entries.Keys
      invariant forall k :: k in kwargs.entries ==>
        kwargs.entries[k] == if k in todo then old(kwargs.entries)[k] else EscapeOne(old(kwargs.entries)[k])
      decreases todo
    {
      var k :| k in todo;
      kwargs.entries := kwargs.entries[k := EscapeOne(kwargs.entries[k])];
      todo := todo - {k};
    }
    r := EscapeOne(text);
  }

  /** `print_HTML` as written: `escape_for_html(text, **kwargs)` unpacks the
      arguments into a new dict, so the escape lands on that copy and the
      formatter gets the caller's arguments unescaped. */
  method PrintHtmlAsWritten(text: string, kwargs: map<string, string>) returns (shown: string, args: map<string, string>)
    ensures shown == EscapeOne(text)
    ensures args == kwargs
  {
    var callee := new KwArgs(kwargs);
    shown := EscapeForHtml(text, callee);
    args := kwargs;
  }

  /** An argument holding a form feed reaches the formatter as it is, while
      the escaped arguments would hold a space in its place. */
  lemma FormFeedArgumentUnescaped()
    ensures var kwargs := map["e" := [FormFeed]];
      FormFeed in kwargs["e"] && EscapeMap(kwargs)["e"] == " " && EscapeMap(kwargs) != kwargs
  {
    var kwargs := map["e" := [FormFeed]];
    assert EscapeOne(kwargs["e"])[0] == ' ';
    assert EscapeMap(kwargs)["e"] == " ";
  }

  /** `print_HTML` as its docstring means it: the escape runs on the dict the
      formatter then reads, so neither the text nor any argument it formats
      holds a control character. */
  method PrintHtml(text: string, kwargs: map<string, string>) returns (shown: string, args: map<string, string>)
    ensures shown == EscapeOne(text)
    ensures args == EscapeMap(kwargs)
    ensures FormFeed !in shown && Backspace !in shown
    ensures args.Keys == kwargs.Keys
    ensures forall k :: k in args ==> FormFeed !in args[k] && Backspace !in args[k]
  {
    var d := new KwArgs(kwargs);
    shown := EscapeForHtml(text, d);
    args := d.entries;
    EscapeOneClean(text);
    EscapeMapClean(kwargs);
  }

  // ---------------------------------------------------------------------
  // the formatter print_HTML ends in

  /** Neither brace occurs in `s`. */
  predicate BraceFree(s: string) {
    '{' !in s && '}' !in s
  }

  /** `r` with `p` in front, or `r`'s error. */
  function Prefixed(p: string, r: Result<string>): Result<string> {
    if r.Failure? then r else Success(p + r.value)
  }

  /** `.format(**kwargs)` as `print_HTML` applies it, on the HTML path and in
      the `ExpatError` fallback alike, with keyword arguments only: `{{` and
      `}}` stand for one brace and `{name}` for the argument `name`. An empty
      or numeric field raises `IndexError`, as there are no positional
      arguments; an unknown name raises `KeyError`; a lone `}`, an unclosed
      `{` or a `{` inside a field raises `ValueError`. The first of these met
      from the left is the one raised. */
  function Format(s: string, kwargs: map<string, string>): Result<string>
    decreases |s|
  {
    if s == [] then Success([])
    else if |s| > 1 && (s[0] == '{' || s[0] == '}') && s[1] == s[0] then Prefixed([s[0]], Format(s[2..], kwargs))
    else if s[0] == '}' then Failure("ValueError")
    else if s[0] == '{' then
      var close := IndexOf(s[1..], '}');
      if close == |s| - 1 then Failure("ValueError")
      else
        var name := s[1..close + 1];
        if '{' in name then Failure("ValueError")
        else if name == [] || AllDigits(name) then Failure("IndexError")
        else if name !in kwargs then Failure("KeyError")
        else Prefixed(kwargs[name], Format(s[close + 2..], kwargs))
    else Prefixed([s[0]], Format(s[1..], kwargs))
  }

  /** Text without braces is shown as it is, in front of whatever follows. */
  lemma {:induction false} FormatBraceFreePrefix(a: string, t: string, kwargs: map<string, string>)
    requires BraceFree(a)
    ensures Format(a + t, kwargs) == Prefixed(a, Format(t, kwargs))
    decreases |a|
  {
    if a == [] {
      assert a + t == t;
      var f := Format(t, kwargs);
      if f.Success? {
        assert a + f.value == f.value;
      }
    } else {
      var s := a + t;
      assert s[0] == a[0] && s[1..] == a[1..] + t;
      assert a[0] in a && a[0] != '{' && a[0] != '}';
      assert Format(s, kwargs) == Prefixed([a[0]], Format(a[1..] + t, kwargs));
      assert forall c :: c in a[1..] ==> c in a;
      FormatBraceFreePrefix(a[1..], t, kwargs);
      var f := Format(t, kwargs);
      if f.Success? {
        assert [a[0]] + (a[1..] + f.value) == a + f.value;
      }
    }
  }

  /** Text without braces formats to itself, whatever the arguments. */
  lemma FormatBraceFree(s: string, kwargs: map<string, string>)
    requires BraceFree(s)
    ensures Format(s, kwargs) == Success(s)
  {
    FormatBraceFreePrefix(s, [], kwargs);
    assert s + [] == s;
  }

  /** A field naming an argument is replaced by its value; a field naming
      none raises `KeyError`. */
  lemma FormatField(name: string, t: string, kwargs: map<string, string>)
    requires name != [] && BraceFree(name) && !AllDigits(name)
    ensures Format("{" + name + "}" + t, kwargs) ==
      if name in kwargs then Prefixed(kwargs[name], Format(t, kwargs)) else Failure("KeyError")
  {
    var s := "{" + name + "}" + t;
    var rest := s[1..];
    assert rest == name + "}" + t;
    assert s[1] == name[0] && name[0] in name;
    assert rest[|name|] == '}';
    assert forall k :: 0 <= k < |name| ==> rest[k] == name[k];
    var close := IndexOf(rest, '}');
    assert close == |name|;
    assert s[1..close + 1] == name;
    assert s[close + 2..] == t;
  }

  /** Brace-free text followed by a field naming an argument shows the text
      and the argument's value, then formats the rest. */
  lemma FormatMarkupField(markup: string, name: string, t: string, kwargs: map<string, string>)
    requires BraceFree(markup) && name != [] && BraceFree(name) && !AllDigits(name) && name in kwargs
    ensures Format(markup + ("{" + name + "}" + t), kwargs) == Prefixed(markup + kwargs[name], Format(t, kwargs))
  {
    FormatBraceFreePrefix(markup, "{" + name + "}" + t, kwargs);
    FormatField(name, t, kwargs);
    var f := Format(t, kwargs);
    if f.Success? {
      assert markup + (kwargs[name] + f.value) == (markup + kwargs[name]) + f.value;
    }
  }

  /** A `}` that is not doubled raises `ValueError`. */
  lemma FormatLoneClose(t: string, kwargs: map<string, string>)
    requires t == [] || t[0] != '}'
    ensures Format("}" + t, kwargs) == Failure("ValueError")
  {
    assert ("}" + t)[0] == '}';
    assert t != [] ==> ("}" + t)[1] == t[0];
  }

  /** The escape moves no brace: escaped text is brace-free exactly when the
      text is. */
  lemma EscapeOneBraceFree(v: string)
    ensures BraceFree(EscapeOne(v)) <==> BraceFree(v)
  {
    var r := EscapeOne(v);
    assert forall i :: 0 <= i < |v| ==> (r[i] == '{' <==> v[i] == '{') && (r[i] == '}' <==> v[i] == '}');
    if '{' in v {
      var i :| 0 <= i < |v| && v[i] == '{';
      assert r[i] == '{';
    }
    if '}' in v {
      var i :| 0 <= i < |v| && v[i] == '}';
      assert r[i] == '}';
    }
    if '{' in r {
      var i :| 0 <= i < |r| && r[i] == '{';
      assert v[i] == '{';
    }
    if '}' in r {
      var i :| 0 <= i < |r| && r[i] == '}';
      assert v[i] == '}';
    }
  }

  /** The escape works character by character, so it splits over `+`. */
  lemma EscapeOneAppend(a: string, b: string)
    ensures EscapeOne(a + b) == EscapeOne(a) + EscapeOne(b)
  {
    var l, r := EscapeOne(a + b), EscapeOne(a) + EscapeOne(b);
    assert |l| == |r|;
    forall i | 0 <= i < |l| ensures l[i] == r[i] {
      if i < |a| {
        assert (a + b)[i] == a[i];
      } else {
        assert (a + b)[i] == b[i - |a|];
      }
    }
  }

  // ---------------------------------------------------------------------
  // download_if_repo

  /** `is_dataset`: the first `/`-segment of the path is `datasets`. */
  predicate IsDataset(path: string) {
    Split(path, '/')[0] == "datasets"
  }

  /** `is_file`: the path names a single `.bin` file. */
  predicate IsFile(path: string) {
    EndsWith(path, ".bin")
  }

  /** `allow_patterns`: one file name, or a list of glob patterns. */
  datatype Patterns = Single(pattern: string) | Several(patterns: seq<string>)

  function AllowPatterns(path: string): Patterns {
    var split := Split(path, '/');
    if IsFile(path) then Single(split[|split| - 1]) else Several(["*.bin", "*.json"])
  }

  /** `repo_id`: the path without a leading `datasets` segment, cut to its first
      two segments for a `.bin` path. */
  function RepoId(path: string): string {
    var split := Split(path, '/');
    var rest := if IsDataset(path) then split[1..] else split;
    if IsFile(path) then Join("/", if |rest| <= 2 then rest else rest[..2])
    else if IsDataset(path) then Join("/", rest)
    else path
  }

  /** `p`: where the model is looked for on disk. Joining onto `models` leaves
      an absolute path as it is. */
  function LocalPath(path: string): string {
    if StartsWith(path, "models/") then path
    else if |path| > 0 && path[0] == '/' then path
    else "models/" + path
  }

  /** `Path.parent` of a path without redundant separators. */
  function Parent(p: string): string {
    var i := LastIndexOf(p, '/');
    if i > 0 then p[..i] else if i == 0 then "/" else "."
  }

  /** What `snapshot_download` is asked for. */
  datatype Request = Request(repoId: string, allowPatterns: Patterns, localDir: string, repoType: Option<string>)

  function DownloadRequest(path: string): Request {
    var p := LocalPath(path);
    Request(RepoId(path), AllowPatterns(path), if IsFile(path) then Parent(p) else p,
            if IsDataset(path) then Some("dataset") else None)
  }

  /** `download_if_repo`: the local path when it is already there (a file for
      a `.bin` path, a directory otherwise); else what the download returns,
      where a repository id that fails validation or a failed request is `None`. */
  function DownloadIfRepo(path: string, isFileAt: string -> bool, isDirAt: string -> bool,
                          download: Request -> Option<string>): Option<string>
  {
    var p := LocalPath(path);
    if (IsFile(path) && isFileAt(p)) || (!IsFile(path) && isDirAt(p)) then Some(p)
    else download(DownloadRequest(path))
  }

  /** The first piece of a split is everything before the first separator. */
  lemma SplitFirst(s: string, c: char)
    ensures Split(s, c)[0] == s[..IndexOf(s, c)]
  {
  }

  /** A path is a dataset path exactly when it is `datasets` or starts with
      `datasets/`. */
  lemma {:induction false} IsDatasetIff(path: string)
    ensures IsDataset(path) <==> path == "datasets" || StartsWith(path, "datasets/")
  {
    if path == "datasets" {
      IndexOfAbsent(path, '/');
    } else if StartsWith(path, "datasets/") {
      assert path == "datasets/" + path[9..];
      SplitDatasets(path[9..]);
    } else if IsDataset(path) {
      DatasetsFirst(path);
    }
  }

  /** A first segment `datasets` is followed by the end or by a separator. */
  lemma DatasetsFirst(path: string)
    requires Split(path, '/')[0] == "datasets"
    ensures path == "datasets" || StartsWith(path, "datasets/")
  {
    var i := IndexOf(path, '/');
    SplitFirst(path, '/');
    if i < |path| {
      assert path[..i + 1] == path[..i] + "/";
    }
  }

  /** A dataset path without a `.bin` ending names its repository by the rest
      of the path. */
  lemma RepoIdOfDataset(rest: string)
    requires !IsFile("datasets/" + rest)
    ensures IsDataset("datasets/" + rest)
    ensures RepoId("datasets/" + rest) == rest
  {
    SplitDatasets(rest);
    JoinSplit(rest, '/');
  }

  lemma SplitDatasets(rest: string)
    ensures Split("datasets/" + rest, '/') == ["datasets"] + Split(rest, '/')
  {
    var path := "datasets/" + rest;
    assert path == "datasets" + ['/'] + rest;
    IndexOfFirst("datasets", rest, '/');
    assert path[..8] == "datasets" && path[9..] == rest;
  }

  /** A path outside `datasets` that names no `.bin` file is the repository id. */
  lemma RepoIdOfModelDir(path: string)
    requires !IsFile(path) && !IsDataset(path)
    ensures RepoId(path) == path
  {
  }

  /** A file path `owner/name/file.bin` asks for `file.bin` of repository
      `owner/name`. */
  lemma RepoIdOfModelFile(owner: string, name: string, file: string)
    requires '/' !in owner && '/' !in name && '/' !in file
    requires owner != "datasets" && EndsWith(file, ".bin")
    ensures var path := owner + "/" + name + "/" + file;
      RepoId(path) == owner + "/" + name && AllowPatterns(path) == Single(file)
  {
    var path := owner + "/" + name + "/" + file;
    assert Split(path, '/') == [owner, name, file] by {
      JoinThree(owner, name, file);
      SplitJoin([owner, name, file], '/');
    }
    assert IsFile(path) by {
      EndsWithAppend(owner + "/" + name + "/", file, ".bin");
    }
    var split := Split(path, '/');
    assert !IsDataset(path);
    assert split[..2] == [owner, name];
    assert RepoId(path) == Join("/", split[..2]);
    assert Join("/", [owner, name]) == owner + "/" + name;
  }

  /** The same file under `datasets/` asks for it from dataset `owner/name`. */
  lemma RepoIdOfDatasetFile(owner: string, name: string, file: string)
    requires '/' !in owner && '/' !in name && '/' !in file
    requires EndsWith(file, ".bin")
    ensures var path := "datasets/" + (owner + "/" + name + "/" + file);
      RepoId(path) == owner + "/" + name && AllowPatterns(path) == Single(file)
      && DownloadRequest(path).repoType == Some("dataset")
  {
    var path := "datasets/" + (owner + "/" + name + "/" + file);
    DatasetFileShape(owner, name, file);
    var split := Split(path, '/');
    assert IsDataset(path);
    assert split[1..][..2] == [owner, name];
    assert RepoId(path) == Join("/", split[1..][..2]);
    assert Join("/", [owner, name]) == owner + "/" + name;
  }

  lemma DatasetFileShape(owner: string, name: string, file: string)
    requires '/' !in owner && '/' !in name && '/' !in file
    requires EndsWith(file, ".bin")
    ensures var path := "datasets/" + (owner + "/" + name + "/" + file);
      Split(path, '/') == ["datasets", owner, name, file] && IsFile(path)
  {
    var inner := owner + "/" + name + "/" + file;
    JoinThree(owner, name, file);
    SplitJoin([owner, name, file], '/');
    SplitDatasets(inner);
    EndsWithAppend(owner + "/" + name + "/", file, ".bin");
    EndsWithAppend("datasets/", inner, ".bin");
  }

  lemma JoinThree(a: string, b: string, c: string)
    ensures Join("/", [a, b, c]) == a + "/" + b + "/" + c
  {
    assert [a, b, c][1..] == [b, c];
    assert [b, c][1..] == [c];
    assert Join("/", [b, c]) == b + "/" + c;
  }

  lemma EndsWithAppend(p: string, s: string, suffix: string)
    requires EndsWith(s, suffix)
    ensures EndsWith(p + s, suffix)
  {
    assert (p + s)[|p + s| - |suffix|..] == s[|s| - |suffix|..];
  }

  /** A relative path is always looked for under `models/`, and looking it up
      again changes nothing. */
  lemma LocalPathUnderModels(path: string)
    requires |path| == 0 || path[0] != '/'
    ensures StartsWith(LocalPath(path), "models/")
    ensures LocalPath(LocalPath(path)) == LocalPath(path)
  {
    var p := LocalPath(path);
    assert p[..7] == "models/";
  }

  lemma {:induction false} LastIndexOfAppend(p: string, s: string, c: char)
    requires c in s
    ensures LastIndexOf(p + s, c) == |p| + LastIndexOf(s, c)
  {
    var l := LastIndexOf(s, c);
    assert l >= 0;
    var t := p + s;
    assert t[|p| + l] == c;
    forall k | |p| + l < k < |t| ensures t[k] != c {
      assert t[k] == s[k - |p|];
    }
    LastIndexOfIs(t, c, |p| + l);
  }

  /** A downloaded `.bin` file lands where the next run looks for it: the
      download directory joined with the requested file name is the local path. */
  lemma {:induction false} FileLandsAtLocalPath(path: string)
    requires IsFile(path) && (|path| == 0 || path[0] != '/')
    ensures var r := DownloadRequest(path);
      r.localDir + "/" + r.allowPatterns.pattern == LocalPath(path)
  {
    FileRequestShape(path);
    SplitLast(path, '/');
    ParentJoinsLastPiece(path);
  }

  /** For a `.bin` path the download goes to the local path's parent and asks
      for the last piece of the path. */
  lemma FileRequestShape(path: string)
    ensures var parts := Split(path, '/');
      IsFile(path) ==>
        DownloadRequest(path).localDir == Parent(LocalPath(path))
        && DownloadRequest(path).allowPatterns == Single(parts[|parts| - 1])
  {
    if IsFile(path) {
      FileRequestDir(path);
      FileRequestPattern(path);
    }
  }

  lemma FileRequestDir(path: string)
    requires IsFile(path)
    ensures DownloadRequest(path).localDir == Parent(LocalPath(path))
  {
  }

  lemma FileRequestPattern(path: string)
    requires IsFile(path)
    ensures var parts := Split(path, '/');
      DownloadRequest(path).allowPatterns == Single(parts[|parts| - 1])
  {
  }

  /** A relative path's local path is its parent, a separator and what
      follows the path's last separator. */
  lemma ParentJoinsLastPiece(path: string)
    requires |path| == 0 || path[0] != '/'
    ensures Parent(LocalPath(path)) + "/" + path[LastIndexOf(path, '/') + 1..] == LocalPath(path)
  {
    LocalLastSlash(path);
    RejoinAtLast(LocalPath(path));
  }

  /** A path whose last separator is not its first character is its parent,
      that separator and what follows. */
  lemma RejoinAtLast(p: string)
    requires LastIndexOf(p, '/') > 0
    ensures Parent(p) + "/" + p[LastIndexOf(p, '/') + 1..] == p
  {
    var i := LastIndexOf(p, '/');
    assert p[..i + 1] == p[..i] + "/";
  }

  /** The last separator of the local path comes after its first character,
      and what follows it is what follows the last separator of the path. */
  lemma {:induction false} LocalLastSlash(path: string)
    requires |path| == 0 || path[0] != '/'
    ensures var p := LocalPath(path); var i := LastIndexOf(p, '/');
      i > 0 && p[i + 1..] == path[LastIndexOf(path, '/') + 1..]
  {
    if StartsWith(path, "models/") {
      ModelsPathSlash(path);
    } else if '/' in path {
      NestedPathSlash(path);
    } else {
      BareNameSlash(path);
    }
  }

  lemma ModelsPathSlash(path: string)
    requires StartsWith(path, "models/")
    ensures LastIndexOf(path, '/') >= 6
  {
    assert path[..7][6] == '/';
  }

  lemma NestedPathSlash(path: string)
    requires '/' in path
    ensures var p := "models/" + path; var l := LastIndexOf(path, '/');
      LastIndexOf(p, '/') == 7 + l && p[7 + l + 1..] == path[l + 1..]
  {
    LastIndexOfAppend("models/", path, '/');
  }

  lemma BareNameSlash(path: string)
    requires '/' !in path
    ensures LastIndexOf("models/" + path, '/') == 6
    ensures ("models/" + path)[7..] == path
    ensures LastIndexOf(path, '/') == -1
  {
    var p := "models/" + path;
    assert p[6] == '/';
    forall k | 6 < k < |p| ensures p[k] != '/' {
      assert p[k] == path[k - 7];
    }
    LastIndexOfIs(p, '/', 6);
    LastIndexOfAbsent(path, '/');
  }

  /** A model already on disk is returned as it is, whatever the download
      would have done. */
  lemma FoundLocallyNoDownload(path: string, isFileAt: string -> bool, isDirAt: string -> bool,
                               download: Request -> Option<string>, other: Request -> Option<string>)
    requires if IsFile(path) then isFileAt(LocalPath(path)) else isDirAt(LocalPath(path))
    ensures DownloadIfRepo(path, isFileAt, isDirAt, download) == Some(LocalPath(path))
    ensures DownloadIfRepo(path, isFileAt, isDirAt, download) == DownloadIfRepo(path, isFileAt, isDirAt, other)
  {
  }

  /** Otherwise the result is the download's, and a failed download gives no path. */
  lemma MissingIsDownloaded(path: string, isFileAt: string -> bool, isDirAt: string -> bool,
                            download: Request -> Option<string>)
    requires if IsFile(path) then !isFileAt(LocalPath(path)) else !isDirAt(LocalPath(path))
    ensures DownloadIfRepo(path, isFileAt, isDirAt, download) == download(DownloadRequest(path))
    ensures download(DownloadRequest(path)).None? ==> DownloadIfRepo(path, isFileAt, isDirAt, download).None?
  {
  }
}
