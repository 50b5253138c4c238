/**
 * Where collectLogs puts the logs of a failure, and which external calls it makes:
 * the naming rule of getExtDir and the specification of the collection itself.
 */
module LogLayout {
  import opened Wrappers
  import opened Strings

  /** The segments handed to Paths.get: logs root, test class simple name, extension directory. */
  type Path = seq<string>

  /** A call of the watcher into code outside it. */
  datatype Effect =
    | CreateNamespace(reply: Result<string, string>)    // createUniqueNamespace and what it gave back
    | CreateDirectories(path: Path)                     // Files.createDirectories
    | GenerateLog(namespace: string, dir: Option<Path>) // LoggingUtil.generateLog; None is a null directory

  datatype Level = Info | Warning

  datatype LogRecord = LogRecord(level: Level, message: string)

  const CollectingLogs: string := "Collecting logs..."
  const NoNamespacesWarning: string :=
    "Namespace list is empty, see if the test class is annotated with @ITNamespaces(numofns = <n>)"

  /**
   * getExtDir: the directory name for a failure in `failedStage`. None stands for
   * the null the Java method returns for the test stage while methodName is null.
   */
  function ExtDir(failedStage: string, methodName: Option<string>): Option<string>
  {
    if failedStage == "beforeEach" || failedStage == "afterEach" then
      Some(Text(methodName) + "_" + failedStage)
    else if failedStage == "test" then
      methodName
    else
      Some(failedStage)
  }

  /** The per-method stages: their directories carry the method name. */
  predicate PerMethodStage(failedStage: string)
  {
    failedStage == "beforeEach" || failedStage == "afterEach" || failedStage == "test"
  }

  /**
   * A per-method stage directory is the method name, followed for the setup and
   * teardown stages by "_" and the stage: tooling finds a test's logs by its name.
   */
  lemma ExtDirNamesMethod(failedStage: string, m: string)
    requires PerMethodStage(failedStage)
    ensures ExtDir(failedStage, Some(m)).Some?
    ensures var d := ExtDir(failedStage, Some(m)).value;
      m <= d && (failedStage == "test" <==> d == m)
      && (failedStage != "test" ==> d[|m|..] == "_" + failedStage)
  {
    var d := ExtDir(failedStage, Some(m)).value;
    if failedStage != "test" {
      assert d == m + ("_" + failedStage);
      assert |d| > |m|;
    }
  }

  /**
   * The per-method stage directories identify the method: two methods that share
   * a directory for such a stage have the same name.
   */
  lemma ExtDirIdentifiesMethod(failedStage: string, m1: string, m2: string)
    requires PerMethodStage(failedStage)
    requires ExtDir(failedStage, Some(m1)) == ExtDir(failedStage, Some(m2))
    ensures m1 == m2
  {
    if failedStage != "test" {
      var suffix := "_" + failedStage;
      var d1, d2 := m1 + suffix, m2 + suffix;
      assert ExtDir(failedStage, Some(m1)).value == d1;
      assert ExtDir(failedStage, Some(m2)).value == d2;
      assert |m1| == |m2|;
      assert m1 == d1[..|m1|] && m2 == d2[..|m2|];
    }
  }

  /** For one method, the three per-method stages get three different directories. */
  lemma ExtDirSeparatesStages(m: string)
    ensures ExtDir("beforeEach", Some(m)) != ExtDir("afterEach", Some(m))
    ensures ExtDir("beforeEach", Some(m)) != ExtDir("test", Some(m))
    ensures ExtDir("afterEach", Some(m)) != ExtDir("test", Some(m))
  {
    assert |ExtDir("beforeEach", Some(m)).value| == |m| + 11;
    assert |ExtDir("afterEach", Some(m)).value| == |m| + 10;
  }

  /** Every stage other than the per-method ones names its own directory. */
  lemma ExtDirOtherStage(failedStage: string, methodName: Option<string>)
    requires !PerMethodStage(failedStage)
    ensures ExtDir(failedStage, methodName) == Some(failedStage)
  {
  }

  /** The directories of typical failures. */
  lemma ExtDirExamples()
    ensures ExtDir("beforeEach", Some("testX")) == Some("testX_beforeEach")
    ensures ExtDir("test", Some("testY")) == Some("testY")
    ensures ExtDir("afterAll", Some("testY")) == Some("afterAll")
    ensures ExtDir("afterEach", None) == Some("null_afterEach")
  {
    assert "testX" + "_" + "beforeEach" == "testX_beforeEach";
    assert "null" + "_" + "afterEach" == "null_afterEach";
  }

  /**
   * Index of the first namespace whose log retrieval fails when logs go to `dir`,
   * or |namespaces| when none fails.
   */
  function FirstFailure(namespaces: seq<string>, dir: Option<Path>,
                        fetch: (string, Option<Path>) -> Outcome): (k: nat)
    ensures k <= |namespaces|
    ensures forall i :: 0 <= i < k ==> fetch(namespaces[i], dir).Pass?
    ensures k < |namespaces| ==> fetch(namespaces[k], dir).Fail?
  {
    if |namespaces| == 0 || fetch(namespaces[0], dir).Fail? then 0
    else 1 + FirstFailure(namespaces[1..], dir, fetch)
  }

  /** How many namespaces the collection loop hands to generateLog: up to and including the first failure. */
  function Visited(namespaces: seq<string>, dir: Option<Path>,
                   fetch: (string, Option<Path>) -> Outcome): (n: nat)
    ensures n <= |namespaces|
  {
    var k := FirstFailure(namespaces, dir, fetch);
    if k < |namespaces| then k + 1 else k
  }

  /** The generateLog calls for `namespaces`, in order, all into `dir`. */
  function Fetches(namespaces: seq<string>, dir: Option<Path>): seq<Effect>
  {
    seq(|namespaces|, i requires 0 <= i < |namespaces| => GenerateLog(namespaces[i], dir))
  }

  /**
   * The fetch loop of collectLogs: namespace by namespace into `dir`, until the
   * first failure, which it reports.
   */
  method FetchAll(namespaces: seq<string>, dir: Option<Path>, fetch: (string, Option<Path>) -> Outcome)
    returns (calls: seq<Effect>, outcome: Outcome)
    ensures calls == Fetches(namespaces[..Visited(namespaces, dir, fetch)], dir)
    ensures outcome == FetchOutcome(namespaces, dir, fetch)
  {
    calls := [];
    var i := 0;
    while i < |namespaces|
      invariant 0 <= i <= |namespaces|
      invariant forall j :: 0 <= j < i ==> fetch(namespaces[j], dir).Pass?
      invariant calls == Fetches(namespaces[..i], dir)
    {
      calls := calls + [GenerateLog(namespaces[i], dir)];
      assert Fetches(namespaces[..i + 1], dir) == Fetches(namespaces[..i], dir) + [GenerateLog(namespaces[i], dir)];
      var fetched := fetch(namespaces[i], dir);
      if fetched.Fail? {
        assert FirstFailure(namespaces, dir, fetch) == i;
        return calls, fetched;
      }
      i := i + 1;
    }
    assert namespaces[..i] == namespaces;
    outcome := Pass;
  }

  /** The directory collectLogs passes on: the created path, or null when creating it failed. */
  function ResultDir(path: Path, mkdirs: Path -> Outcome): Option<Path>
  {
    if mkdirs(path).Pass? then Some(path) else None
  }

  /** The external calls of collectLogs for the tracked `namespaces` and target `path`. */
  function CollectionEffects(namespaces: seq<string>, path: Path, mkdirs: Path -> Outcome,
                             fetch: (string, Option<Path>) -> Outcome): seq<Effect>
  {
    if |namespaces| == 0 then []
    else
      var dir := ResultDir(path, mkdirs);
      [CreateDirectories(path)] + Fetches(namespaces[..Visited(namespaces, dir, fetch)], dir)
  }

  /** How the fetch loop ends: with the failure that stopped it, or passing. */
  function FetchOutcome(namespaces: seq<string>, dir: Option<Path>,
                        fetch: (string, Option<Path>) -> Outcome): Outcome
  {
    var k := FirstFailure(namespaces, dir, fetch);
    if k < |namespaces| then fetch(namespaces[k], dir) else Pass
  }

  /** What a catch block logs for an outcome: the failure's message as a warning. */
  function WarningOf(o: Outcome): seq<LogRecord>
  {
    if o.Fail? then [LogRecord(Warning, o.message)] else []
  }

  /** What collectLogs logs for the tracked `namespaces` and target `path`. */
  function CollectionRecords(namespaces: seq<string>, path: Path, mkdirs: Path -> Outcome,
                             fetch: (string, Option<Path>) -> Outcome): seq<LogRecord>
  {
    if |namespaces| == 0 then
      [LogRecord(Info, CollectingLogs), LogRecord(Warning, NoNamespacesWarning)]
    else
      [LogRecord(Info, CollectingLogs)]
      + WarningOf(mkdirs(path))
      + WarningOf(FetchOutcome(namespaces, ResultDir(path, mkdirs), fetch))
  }

  /** Collection with namespaces tracked, step by step: the directory, then the fetch loop. */
  lemma CollectionSteps(namespaces: seq<string>, path: Path, mkdirs: Path -> Outcome,
                        fetch: (string, Option<Path>) -> Outcome)
    requires |namespaces| > 0
    ensures var dir := ResultDir(path, mkdirs);
      CollectionEffects(namespaces, path, mkdirs, fetch)
        == [CreateDirectories(path)] + Fetches(namespaces[..Visited(namespaces, dir, fetch)], dir)
      && CollectionRecords(namespaces, path, mkdirs, fetch)
        == [LogRecord(Info, CollectingLogs)] + WarningOf(mkdirs(path)) + WarningOf(FetchOutcome(namespaces, dir, fetch))
  {
  }

  /** With nothing tracked, collection creates no directory and fetches nothing; it only warns. */
  lemma CollectNothingTracked(path: Path, mkdirs: Path -> Outcome, fetch: (string, Option<Path>) -> Outcome)
    ensures CollectionEffects([], path, mkdirs, fetch) == []
    ensures CollectionRecords([], path, mkdirs, fetch)
      == [LogRecord(Info, CollectingLogs), LogRecord(Warning, NoNamespacesWarning)]
  {
  }

  /**
   * With namespaces tracked, collection first creates the target directory, then
   * fetches logs namespace by namespace in list order, into the directory when it
   * was created and into null when not. Every fetch but the last succeeded; when
   * none fails the fetches cover the whole list, and when they stop early the last
   * one failed.
   */
  lemma CollectInOrder(namespaces: seq<string>, path: Path, mkdirs: Path -> Outcome,
                       fetch: (string, Option<Path>) -> Outcome)
    requires |namespaces| > 0
    ensures var e := CollectionEffects(namespaces, path, mkdirs, fetch);
      var dir := ResultDir(path, mkdirs);
      2 <= |e| <= |namespaces| + 1
      && e[0] == CreateDirectories(path)
      && (forall i :: 1 <= i < |e| ==> e[i] == GenerateLog(namespaces[i - 1], dir))
      && (forall i :: 0 <= i < |e| - 2 ==> fetch(namespaces[i], dir).Pass?)
      && ((forall i :: 0 <= i < |namespaces| ==> fetch(namespaces[i], dir).Pass?) ==> |e| == |namespaces| + 1)
      && (|e| < |namespaces| + 1 ==> fetch(namespaces[|e| - 2], dir).Fail?)
  {
    var dir := ResultDir(path, mkdirs);
    var k := FirstFailure(namespaces, dir, fetch);
    var e := CollectionEffects(namespaces, path, mkdirs, fetch);
    var n := Visited(namespaces, dir, fetch);
    assert |e| == n + 1;
    forall i | 1 <= i < |e| ensures e[i] == GenerateLog(namespaces[i - 1], dir) {
      assert e[i] == Fetches(namespaces[..n], dir)[i - 1];
    }
    if forall i :: 0 <= i < |namespaces| ==> fetch(namespaces[i], dir).Pass? {
      assert k == |namespaces|;
    }
  }

  /** A failed fetch ends the collection: no namespace after it is visited, and its message is logged. */
  lemma CollectStopsAtFirstFailure(namespaces: seq<string>, path: Path, mkdirs: Path -> Outcome,
                                   fetch: (string, Option<Path>) -> Outcome, j: nat)
    requires j < |namespaces|
    requires fetch(namespaces[j], ResultDir(path, mkdirs)).Fail?
    ensures |CollectionEffects(namespaces, path, mkdirs, fetch)| <= j + 2
    ensures exists i :: (0 <= i <= j && fetch(namespaces[i], ResultDir(path, mkdirs)).Fail?
      && LogRecord(Warning, fetch(namespaces[i], ResultDir(path, mkdirs)).message)
         in CollectionRecords(namespaces, path, mkdirs, fetch))
  {
    var dir := ResultDir(path, mkdirs);
    var k := FirstFailure(namespaces, dir, fetch);
    assert k <= j;
    var rs := CollectionRecords(namespaces, path, mkdirs, fetch);
    assert rs[|rs| - 1] == LogRecord(Warning, fetch(namespaces[k], dir).message);
  }
}
