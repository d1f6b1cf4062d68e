/** Signal files: finding the signal CSV files under the signal directory and
    reading their path metadata (`signal_get`), and combining, filtering and
    ordering the signals of chosen files (`signals_analyze`).

    The file system is an input: the walk is the list of files it yields and
    the readable files are a map from relative path to their rows. */
module SignalHandler {
  import opened Wrappers
  import Text

  /** `os.sep`. */
  const Sep: char := '/'
  const Unknown: string := "unknown"

  /** Metadata read from a path relative to the signal directory:
      data source / stock / strategy / file name. */
  datatype PathInfo = PathInfo(dataSource: string, stockInfo: string, strategyName: string)

  /** The path components at 0, 1 and 2, each "unknown" when the path is
      shorter. */
  function PathMetadata(relativePath: string): (m: PathInfo)
    ensures m.dataSource == Text.Split(relativePath, Sep)[0]
    ensures Sep !in m.dataSource && Sep !in m.stockInfo && Sep !in m.strategyName
  {
    var parts := Text.Split(relativePath, Sep);
    PathInfo(if |parts| > 0 then parts[0] else Unknown,
             if |parts| > 1 then parts[1] else Unknown,
             if |parts| > 2 then parts[2] else Unknown)
  }

  /** Component names never hold the separator. */
  predicate PlainComponents(components: seq<string>) {
    forall c :: c in components ==> Sep !in c
  }

  /** The metadata of a path built from its components are those components,
      "unknown" where the path has fewer than three. */
  lemma MetadataOfComponents(components: seq<string>)
    requires |components| >= 1 && PlainComponents(components)
    ensures PathMetadata(Text.Join(components, Sep)) ==
      PathInfo(components[0],
               if |components| > 1 then components[1] else Unknown,
               if |components| > 2 then components[2] else Unknown)
  {
    Text.SplitJoin(components, Sep);
  }

  // ---------------------------------------------------------------------------
  // signal_get

  /** A file the walk of the signal directory yields: the directories between
      the signal directory and the file, its name, and its creation time
      already formatted as "YYYY-mm-dd HH:MM:SS". */
  datatype WalkedFile = WalkedFile(dirs: seq<string>, name: string, fileTime: string)

  /** One entry of `signal_get`'s result. */
  datatype SignalFile = SignalFile(filePath: string, dataSource: string, stockInfo: string,
                                   strategyName: string, fileTime: string)

  /** The file-name test of the walk. */
  predicate IsSignalFile(name: string) {
    Text.EndsWith(name, ".csv") && Text.StartsWith(name, "stock_signals_")
  }

  function RelativePath(w: WalkedFile): string {
    Text.Join(w.dirs + [w.name], Sep)
  }

  function EntryOf(w: WalkedFile): (e: SignalFile)
    ensures e.filePath == RelativePath(w) && e.fileTime == w.fileTime
  {
    var m := PathMetadata(RelativePath(w));
    SignalFile(RelativePath(w), m.dataSource, m.stockInfo, m.strategyName, w.fileTime)
  }

  /** An entry's metadata are the directories it sits in: a file directly in
      the signal directory gets its own name as data source. */
  lemma EntryMetadata(w: WalkedFile)
    requires PlainComponents(w.dirs + [w.name])
    ensures var e := EntryOf(w);
      && e.dataSource == (if |w.dirs| > 0 then w.dirs[0] else w.name)
      && e.stockInfo == (if |w.dirs| > 1 then w.dirs[1] else if |w.dirs| == 1 then w.name else Unknown)
      && e.strategyName == (if |w.dirs| > 2 then w.dirs[2] else if |w.dirs| == 2 then w.name else Unknown)
  {
    MetadataOfComponents(w.dirs + [w.name]);
  }

  /** The entries of the signal files of the walk, in walk order. */
  function Collected(walk: seq<WalkedFile>): (r: seq<SignalFile>)
    ensures |r| <= |walk|
    ensures forall e :: e in r <==> exists w :: w in walk && IsSignalFile(w.name) && e == EntryOf(w)
    decreases |walk|
  {
    if walk == [] then []
    else
      var init := walk[..|walk| - 1];
      var w := walk[|walk| - 1];
      assert forall x :: x in walk <==> x in init || x == w;
      Collected(init) + (if IsSignalFile(w.name) then [EntryOf(w)] else [])
  }

  function FileTimeKey(e: SignalFile): string {
    e.fileTime
  }

  /** `signal_get`: fails when the signal directory does not exist;
      otherwise collects the signal files of the walk and sorts them by
      creation time, newest first. */
  method SignalGet(rootExists: bool, walk: seq<WalkedFile>) returns (r: Result<seq<SignalFile>, string>)
    ensures r.Failure? <==> !rootExists
    ensures r.Success? ==> r.value == Text.SortDesc(Collected(walk), FileTimeKey)
  {
    if !rootExists {
      return Failure("signal directory does not exist");
    }
    var signalFiles := [];
    var i := 0;
    while i < |walk|
      invariant 0 <= i <= |walk|
      invariant signalFiles == Collected(walk[..i])
    {
      var file := walk[i];
      assert walk[..i + 1][..i] == walk[..i];
      if IsSignalFile(file.name) {
        var relativePath := Text.Join(file.dirs + [file.name], Sep);
        var m := PathMetadata(relativePath);
        signalFiles := signalFiles + [SignalFile(relativePath, m.dataSource, m.stockInfo, m.strategyName, file.fileTime)];
      }
      i := i + 1;
    }
    assert walk[..|walk|] == walk;
    return Success(Text.SortDesc(signalFiles, FileTimeKey));
  }

  /** What `signal_get` returns: exactly the signal files of the walk, each
      once per time the walk yields it, newest first. */
  lemma SignalGetResult(walk: seq<WalkedFile>)
    ensures var r := Text.SortDesc(Collected(walk), FileTimeKey);
      && Text.SortedDesc(r, FileTimeKey)
      && multiset(r) == multiset(Collected(walk))
      && forall e :: e in r <==> exists w :: w in walk && IsSignalFile(w.name) && e == EntryOf(w)
  {
    var r := Text.SortDesc(Collected(walk), FileTimeKey);
    Text.SortDescSorted(Collected(walk), FileTimeKey);
    forall e ensures e in r <==> e in Collected(walk) {
      assert e in r <==> e in multiset(r);
    }
  }

  // ---------------------------------------------------------------------------
  // signals_analyze

  /** A row of a signal CSV file. */
  datatype CsvRow = CsvRow(date: string, signalType: string, description: string)

  /** A combined row: the CSV row with the metadata of its file. */
  datatype Signal = Signal(date: string, signalType: string, description: string,
                           dataSource: string, stockInfo: string, strategyName: string, filePath: string)

  /** The filters of the analysis; a missing or empty filter is inactive. */
  datatype Filters = Filters(strategyName: Option<string>, stockCode: Option<string>, signalType: Option<string>,
                             startDate: Option<string>, endDate: Option<string>)

  const NoFilters := Filters(None, None, None, None, None)

  predicate Active(f: Option<string>) {
    f.Some? && f.value != ""
  }

  function Tagged(rows: seq<CsvRow>, filePath: string): (r: seq<Signal>)
    ensures |r| == |rows|
    ensures forall k :: 0 <= k < |rows| ==>
      var m := PathMetadata(filePath);
      r[k] == Signal(rows[k].date, rows[k].signalType, rows[k].description,
                     m.dataSource, m.stockInfo, m.strategyName, filePath)
  {
    var m := PathMetadata(filePath);
    seq(|rows|, k requires 0 <= k < |rows| =>
      Signal(rows[k].date, rows[k].signalType, rows[k].description, m.dataSource, m.stockInfo, m.strategyName, filePath))
  }

  /** The tagged rows of the chosen files that exist, in the order chosen,
      and how many files were read. */
  function Combined(filePaths: seq<string>, files: map<string, seq<CsvRow>>): (r: (seq<Signal>, nat))
    ensures r.1 <= |filePaths|
    ensures r.1 == 0 <==> forall p :: p in filePaths ==> p !in files
    decreases |filePaths|
  {
    if filePaths == [] then ([], 0)
    else
      var init := filePaths[..|filePaths| - 1];
      var p := filePaths[|filePaths| - 1];
      assert forall x :: x in filePaths <==> x in init || x == p;
      var before := Combined(init, files);
      if p in files then (before.0 + Tagged(files[p], p), before.1 + 1) else before
  }

  /** Reading one more path appends that file's tagged rows when the file
      exists and nothing when it is missing. */
  lemma CombinedAppend(filePaths: seq<string>, p: string, files: map<string, seq<CsvRow>>)
    ensures Combined(filePaths + [p], files).0
         == Combined(filePaths, files).0 + (if p in files then Tagged(files[p], p) else [])
    ensures Combined(filePaths + [p], files).1 == Combined(filePaths, files).1 + (if p in files then 1 else 0)
  {
    assert (filePaths + [p])[..|filePaths|] == filePaths;
  }

  /** A combined row is a row of an existing chosen file, tagged with that
      file's metadata; missing paths contribute nothing. */
  lemma {:induction false} CombinedMembers(filePaths: seq<string>, files: map<string, seq<CsvRow>>, s: Signal)
    ensures s in Combined(filePaths, files).0 <==>
      exists p :: p in filePaths && p in files && s in Tagged(files[p], p)
    decreases |filePaths|
  {
    if filePaths != [] {
      var init := filePaths[..|filePaths| - 1];
      var last := filePaths[|filePaths| - 1];
      assert filePaths == init + [last];
      CombinedAppend(init, last, files);
      CombinedMembers(init, files, s);
      assert forall x :: x in filePaths <==> x in init || x == last;
    }
  }

  /** The rows of `rows` for which `keep` holds, in their order. */
  function Where(rows: seq<Signal>, keep: Signal -> bool): (r: seq<Signal>)
    ensures |r| <= |rows|
    ensures forall x :: x in r <==> x in rows && keep(x)
    decreases |rows|
  {
    if rows == [] then []
    else
      var init := rows[..|rows| - 1];
      var x := rows[|rows| - 1];
      assert forall y :: y in rows <==> y in init || y == x;
      Where(init, keep) + (if keep(x) then [x] else [])
  }

  /** Filtering twice keeps what passes both tests. */
  lemma {:induction false} WhereWhere(rows: seq<Signal>, first: Signal -> bool, second: Signal -> bool, both: Signal -> bool)
    requires forall x :: both(x) == (first(x) && second(x))
    ensures Where(Where(rows, first), second) == Where(rows, both)
    decreases |rows|
  {
    if rows != [] {
      var init := rows[..|rows| - 1];
      var x := rows[|rows| - 1];
      WhereWhere(init, first, second, both);
      var w := Where(init, first);
      assert Where(rows, first) == w + (if first(x) then [x] else []);
      assert Where(rows, both) == Where(init, both) + (if both(x) then [x] else []);
      if first(x) {
        var wx := w + [x];
        assert wx[..|wx| - 1] == w && wx[|wx| - 1] == x;
        assert Where(wx, second) == Where(w, second) + (if second(x) then [x] else []);
      } else {
        assert w + [] == w;
      }
    }
  }

  /** A row passes a filter when the filter is inactive or the row matches it. */
  predicate PassStrategy(s: Signal, f: Filters) {
    !Active(f.strategyName) || s.strategyName == f.strategyName.value
  }

  predicate PassStock(s: Signal, f: Filters) {
    !Active(f.stockCode) || Text.Contains(s.stockInfo, f.stockCode.value)
  }

  predicate PassType(s: Signal, f: Filters) {
    !Active(f.signalType) || s.signalType == f.signalType.value
  }

  predicate PassStart(s: Signal, f: Filters) {
    !Active(f.startDate) || Text.LexLe(f.startDate.value, s.date)
  }

  predicate PassEnd(s: Signal, f: Filters) {
    !Active(f.endDate) || Text.LexLe(s.date, f.endDate.value)
  }

  /** All five filters at once. */
  predicate Matches(s: Signal, f: Filters) {
    PassStrategy(s, f) && PassStock(s, f) && PassType(s, f) && PassStart(s, f) && PassEnd(s, f)
  }

  /** The filter chain, one filter after the other as the analysis applies them. */
  function FilterChain(rows: seq<Signal>, f: Filters): seq<Signal> {
    var a := Where(rows, s => PassStrategy(s, f));
    var b := Where(a, s => PassStock(s, f));
    var c := Where(b, s => PassType(s, f));
    var d := Where(c, s => PassStart(s, f));
    Where(d, s => PassEnd(s, f))
  }

  /** The chain keeps exactly the rows that pass every filter, in their order. */
  lemma FilterChainMatches(rows: seq<Signal>, f: Filters)
    ensures FilterChain(rows, f) == Where(rows, s => Matches(s, f))
  {
    var p1 := (s: Signal) => PassStrategy(s, f);
    var p2 := (s: Signal) => PassStrategy(s, f) && PassStock(s, f);
    var p3 := (s: Signal) => PassStrategy(s, f) && PassStock(s, f) && PassType(s, f);
    var p4 := (s: Signal) => PassStrategy(s, f) && PassStock(s, f) && PassType(s, f) && PassStart(s, f);
    WhereWhere(rows, p1, s => PassStock(s, f), p2);
    WhereWhere(rows, p2, s => PassType(s, f), p3);
    WhereWhere(rows, p3, s => PassStart(s, f), p4);
    WhereWhere(rows, p4, s => PassEnd(s, f), s => Matches(s, f));
  }

  /** Inactive filters keep every row. */
  lemma {:induction false} NoFiltersKeepAll(rows: seq<Signal>)
    ensures Where(rows, s => Matches(s, NoFilters)) == rows
    decreases |rows|
  {
    if rows != [] {
      NoFiltersKeepAll(rows[..|rows| - 1]);
      assert rows == rows[..|rows| - 1] + [rows[|rows| - 1]];
    }
  }

  function DateKey(s: Signal): string {
    s.date
  }

  /** `signals_analyze` as a value: fails when none of the chosen files
      exists; otherwise the filtered rows, newest date first. */
  function Analyze(filePaths: seq<string>, files: map<string, seq<CsvRow>>, f: Filters): (r: Result<seq<Signal>, string>)
    ensures r.Failure? <==> forall p :: p in filePaths ==> p !in files
  {
    var (rows, read) := Combined(filePaths, files);
    if read == 0 then Failure("no valid signal file found")
    else Success(Text.SortDesc(FilterChain(rows, f), DateKey))
  }

  /** The analysis returns the combined rows that pass every filter, each as
      often as it occurs, sorted by date, newest first. */
  lemma AnalyzeResult(filePaths: seq<string>, files: map<string, seq<CsvRow>>, f: Filters)
    requires exists p :: p in filePaths && p in files
    ensures var r := Analyze(filePaths, files, f);
      var rows := Combined(filePaths, files).0;
      && r.Success?
      && Text.SortedDesc(r.value, DateKey)
      && multiset(r.value) == multiset(Where(rows, s => Matches(s, f)))
      && forall s :: s in r.value <==> s in rows && Matches(s, f)
  {
    var rows := Combined(filePaths, files).0;
    var kept := FilterChain(rows, f);
    FilterChainMatches(rows, f);
    Text.SortDescSorted(kept, DateKey);
    var r := Text.SortDesc(kept, DateKey);
    forall s ensures s in r <==> s in kept {
      assert s in r <==> s in multiset(r);
    }
  }

  /** The reading loop of `signals_analyze`: each chosen file that exists is
      read and tagged, in path order, and counted. */
  method ReadSignals(filePaths: seq<string>, files: map<string, seq<CsvRow>>)
    returns (allSignals: seq<Signal>, read: nat)
    ensures allSignals == Combined(filePaths, files).0
    ensures read == Combined(filePaths, files).1
  {
    allSignals, read := [], 0;
    var i := 0;
    while i < |filePaths|
      invariant 0 <= i <= |filePaths|
      invariant allSignals == Combined(filePaths[..i], files).0
      invariant read == Combined(filePaths[..i], files).1
    {
      var filePath := filePaths[i];
      assert filePaths[..i + 1] == filePaths[..i] + [filePath];
      CombinedAppend(filePaths[..i], filePath, files);
      if filePath in files {
        allSignals := allSignals + Tagged(files[filePath], filePath);
        read := read + 1;
      }
      i := i + 1;
    }
    assert filePaths[..|filePaths|] == filePaths;
  }

  /** `signals_analyze(file_paths, filters)`: reads each chosen file that
      exists, tags its rows with the file's metadata, and filters and sorts
      the combined rows. */
  method SignalsAnalyze(filePaths: seq<string>, files: map<string, seq<CsvRow>>, f: Filters)
    returns (r: Result<seq<Signal>, string>)
    ensures r == Analyze(filePaths, files, f)
  {
    var allSignals, read := ReadSignals(filePaths, files);
    if read == 0 {
      return Failure("no valid signal file found");
    }
    var combined := FilterChain(allSignals, f);
    return Success(Text.SortDesc(combined, DateKey));
  }
}
