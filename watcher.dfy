/**
 * IntegrationTestWatcher: the JUnit 5 extension that prints a banner at every
 * lifecycle step, hands each test the namespaces it asks for and, when a step
 * fails, collects the logs of the tracked namespaces, in order, until the first
 * retrieval error.
 *
 * Collaborators are parameters: `mint(i)` is the reply of the i-th
 * createUniqueNamespace call of a resolution, `mkdirs` the outcome of
 * Files.createDirectories on a path, `fetch` the outcome of
 * LoggingUtil.generateLog for a namespace and a directory. The logger is the
 * ghost sequence `log`, and the calls into collaborators the ghost sequence
 * `effects`.
 */
module Watcher {
  import opened Wrappers
  import opened Strings
  import opened Banner
  import opened LogLayout
  import opened Provisioning

  /** The test class of an extension context: Class.getName() and Class.getSimpleName(). */
  datatype TestClass = TestClass(name: string, simpleName: string)

  /** A thrown exception or error; handlers pass it on or drop it, never inspect it. */
  datatype Throwable = Throwable(className: string, message: string)

  /** Why resolveParameter threw. */
  datatype ResolutionError =
    | NoAnnotation                                   // findAnnotation(...).get() on an empty Optional
    | NamespaceCreationFailed(message: string, cause: string)  // assertDoesNotThrow around createUniqueNamespace

  const CreationFailedMessage: string := "Failed to create unique namespace due to ApiException"

  /** The declared type of a test parameter: its raw class and its type arguments. */
  datatype ParameterType = ParameterType(rawClass: string, typeArguments: seq<string>)

  const ListClass: string := "java.util.List"

  /** supportsParameter: the watcher resolves exactly the parameters whose raw type is List. */
  function SupportsParameter(t: ParameterType): bool
  {
    t.rawClass == ListClass
  }

  /** Only the raw class decides: List<String> and List<Integer> are both supported, ArrayList is not. */
  lemma SupportsRawListOnly(t: ParameterType, u: ParameterType)
    requires t.rawClass == u.rawClass
    ensures SupportsParameter(t) == SupportsParameter(u)
    ensures SupportsParameter(ParameterType(ListClass, [])) && SupportsParameter(ParameterType(ListClass, ["java.lang.String"]))
    ensures !SupportsParameter(ParameterType("java.util.ArrayList", ["java.lang.String"]))
  {
  }

  /** A banner as the logger receives it. */
  function BannerRecord(message: string, rule: string): LogRecord
  {
    LogRecord(Info, Header(message, rule))
  }

  /** A java.util.List<String> object; its identity matters because the watcher shares it. */
  class NamespaceList {
    var items: seq<string>

    constructor (items: seq<string>)
      ensures this.items == items
    {
      this.items := items;
    }

    /** addAll: the other list's elements, in order, after this list's (also when other is this list). */
    method AddAll(other: NamespaceList)
      modifies this
      ensures items == old(items) + old(other.items)
    {
      items := items + other.items;
    }
  }

  class IntegrationTestWatcher {
    var className: Option<string>
    var methodName: Option<string>
    var namespaces: NamespaceList?

    /** LOGS_DIR, the java.io.tmpdir system property. */
    const logsDir: string

    ghost var log: seq<LogRecord>
    ghost var effects: seq<Effect>

    constructor (logsDir: string)
      ensures className == None && methodName == None && namespaces == null
      ensures this.logsDir == logsDir && log == [] && effects == []
    {
      className, methodName, namespaces := None, None, null;
      this.logsDir := logsDir;
      log, effects := [], [];
    }

    /** The namespaces tracked so far; a null list tracks none. */
    function Tracked(): seq<string>
      reads this, namespaces
    {
      if namespaces == null then [] else namespaces.items
    }

    /** "%s" of className. */
    function Suite(): string
      reads this
    {
      Text(className)
    }

    /** "%s.%s()" of className and methodName. */
    function Test(): string
      reads this
    {
      Text(className) + "." + Text(methodName) + "()"
    }

    /** The directory collectLogs writes to for a failure in `failedStage`. */
    function TargetPath(testClass: TestClass, failedStage: string): Path
      reads this
      requires ExtDir(failedStage, methodName).Some?
    {
      [logsDir, testClass.simpleName, ExtDir(failedStage, methodName).value]
    }

    /** The hook leaves the names and the tracked list as they were. */
    twostate predicate KeepsState()
      reads this, namespaces
    {
      className == old(className) && methodName == old(methodName)
      && namespaces == old(namespaces) && (namespaces != null ==> namespaces.items == old(namespaces.items))
    }

    /**
     * resolveParameter: mints the annotated number of namespaces, in order, and
     * returns them. The first resolution makes the returned list the tracked
     * list itself; later ones append a copy of their names to it and return a
     * list of their own. A failed creation throws and tracks nothing new.
     */
    method ResolveParameter(numofns: Option<int>, mint: int -> Result<string, string>)
      returns (r: Result<NamespaceList, ResolutionError>)
      modifies this`namespaces, this`log, this`effects, namespaces
      ensures className == old(className) && methodName == old(methodName)
      ensures numofns.None? ==>
        r == Failure(NoAnnotation) && KeepsState() && log == old(log) && effects == old(effects)
      ensures numofns.Some? ==>
        var c := Create(mint, numofns.value);
        effects == old(effects) + c.calls
        && (c.failure.Some? ==>
              r == Failure(NamespaceCreationFailed(CreationFailedMessage, c.failure.value))
              && KeepsState() && log == old(log) + CreatedRecords(c.names))
        && (c.failure.None? ==>
              r.Success? && fresh(r.value) && r.value.items == c.names
              && (old(namespaces) == null ==> namespaces == r.value)
              && (old(namespaces) != null ==> namespaces == old(namespaces))
              && Tracked() == old(Tracked()) + c.names
              && log == old(log) + CreatedRecords(c.names) + [LogRecord(Info, ListText(Tracked()))])
    {
      if numofns.None? {
        return Failure(NoAnnotation);
      }
      var names, calls, failure := MintNamespaces(numofns.value, mint);
      effects := effects + calls;
      log := log + CreatedRecords(names);
      if failure.Some? {
        return Failure(NamespaceCreationFailed(CreationFailedMessage, failure.value));
      }
      var created := new NamespaceList(names);
      if namespaces != null {
        namespaces.AddAll(created);
      } else {
        namespaces := created;
      }
      log := log + [LogRecord(Info, ListText(Tracked()))];
      return Success(created);
    }

    /** beforeAll: records the test class name and opens the suite and its beforeAll phase. */
    method BeforeAll(testClass: TestClass)
      modifies this`className, this`log
      ensures className == Some(testClass.name)
      ensures log == old(log) + [BannerRecord("Starting Test Suite " + testClass.name, SuiteRule),
                                 BannerRecord("Starting beforeAll for " + testClass.name, PhaseRule)]
    {
      className := Some(testClass.name);
      log := log + [BannerRecord("Starting Test Suite " + Suite(), SuiteRule)];
      log := log + [BannerRecord("Starting beforeAll for " + Suite(), PhaseRule)];
    }

    /** handleBeforeAllMethodExecutionException: reports, collects logs, and swallows the failure. */
    method HandleBeforeAllMethodExecutionException(testClass: TestClass, throwable: Throwable,
                                                   mkdirs: Path -> Outcome, fetch: (string, Option<Path>) -> Outcome)
      returns (rethrown: Option<Throwable>)
      modifies this`log, this`effects
      ensures rethrown == None && KeepsState()
      ensures log == old(log) + [BannerRecord("BeforeAll failed " + Suite(), FailureRule)]
        + CollectionRecords(Tracked(), TargetPath(testClass, "beforeAll"), mkdirs, fetch)
      ensures effects == old(effects) + CollectionEffects(Tracked(), TargetPath(testClass, "beforeAll"), mkdirs, fetch)
    {
      log := log + [BannerRecord("BeforeAll failed " + Suite(), FailureRule)];
      CollectLogs(testClass, "beforeAll", mkdirs, fetch);
      rethrown := None;
    }

    /** beforeEach: records the test method name and opens its beforeEach phase. */
    method BeforeEach(testMethod: string)
      modifies this`methodName, this`log
      ensures methodName == Some(testMethod)
      ensures log == old(log) + [BannerRecord("Starting beforeEach for " + Test(), PhaseRule)]
    {
      methodName := Some(testMethod);
      log := log + [BannerRecord("Starting beforeEach for " + Test(), PhaseRule)];
    }

    /** handleBeforeEachMethodExecutionException: reports, collects logs, and swallows the failure. */
    method HandleBeforeEachMethodExecutionException(testClass: TestClass, throwable: Throwable,
                                                    mkdirs: Path -> Outcome, fetch: (string, Option<Path>) -> Outcome)
      returns (rethrown: Option<Throwable>)
      modifies this`log, this`effects
      ensures rethrown == None && KeepsState()
      ensures log == old(log) + [BannerRecord("BeforeEach failed for " + Test(), FailureRule)]
        + CollectionRecords(Tracked(), TargetPath(testClass, "beforeEach"), mkdirs, fetch)
      ensures effects == old(effects) + CollectionEffects(Tracked(), TargetPath(testClass, "beforeEach"), mkdirs, fetch)
    {
      log := log + [BannerRecord("BeforeEach failed for " + Test(), FailureRule)];
      CollectLogs(testClass, "beforeEach", mkdirs, fetch);
      rethrown := None;
    }

    /** beforeTestExecution: closes the beforeEach phase. */
    method BeforeTestExecution()
      modifies this`log
      ensures KeepsState()
      ensures log == old(log) + [BannerRecord("Ending beforeEach for " + Test(), PhaseRule)]
    {
      log := log + [BannerRecord("Ending beforeEach for " + Test(), PhaseRule)];
    }

    /**
     * interceptTestMethod: announces the test and runs it; `proceed` is what the
     * test body threw (None when it returned), and it goes on unchanged.
     */
    method InterceptTestMethod(proceed: Option<Throwable>) returns (thrown: Option<Throwable>)
      modifies this`log
      ensures thrown == proceed && KeepsState()
      ensures log == old(log) + [BannerRecord("Starting Test " + Test(), PhaseRule)]
    {
      log := log + [BannerRecord("Starting Test " + Test(), PhaseRule)];
      thrown := proceed;
    }

    /**
     * handleTestExecutionException: reports, collects logs into the method's own
     * directory, and rethrows the very same throwable. The runner calls it only
     * after beforeEach, so methodName is set.
     */
    method HandleTestExecutionException(testClass: TestClass, throwable: Throwable,
                                        mkdirs: Path -> Outcome, fetch: (string, Option<Path>) -> Outcome)
      returns (rethrown: Option<Throwable>)
      requires methodName.Some?
      modifies this`log, this`effects
      ensures rethrown == Some(throwable) && KeepsState()
      ensures log == old(log) + [BannerRecord("Test failed " + Test(), FailureRule)]
        + CollectionRecords(Tracked(), TargetPath(testClass, "test"), mkdirs, fetch)
      ensures effects == old(effects) + CollectionEffects(Tracked(), TargetPath(testClass, "test"), mkdirs, fetch)
    {
      log := log + [BannerRecord("Test failed " + Test(), FailureRule)];
      CollectLogs(testClass, "test", mkdirs, fetch);
      rethrown := Some(throwable);
    }

    /** interceptAfterEachMethod: announces the afterEach phase and runs it, passing its outcome on. */
    method InterceptAfterEachMethod(proceed: Option<Throwable>) returns (thrown: Option<Throwable>)
      modifies this`log
      ensures thrown == proceed && KeepsState()
      ensures log == old(log) + [BannerRecord("Starting afterEach for " + Test(), PhaseRule)]
    {
      log := log + [BannerRecord("Starting afterEach for " + Test(), PhaseRule)];
      thrown := proceed;
    }

    /** afterEach: closes the afterEach phase. */
    method AfterEach()
      modifies this`log
      ensures KeepsState()
      ensures log == old(log) + [BannerRecord("Ending afterEach for " + Test(), PhaseRule)]
    {
      log := log + [BannerRecord("Ending afterEach for " + Test(), PhaseRule)];
    }

    /** handleAfterEachMethodExecutionException: reports, collects logs, and swallows the failure. */
    method HandleAfterEachMethodExecutionException(testClass: TestClass, throwable: Throwable,
                                                   mkdirs: Path -> Outcome, fetch: (string, Option<Path>) -> Outcome)
      returns (rethrown: Option<Throwable>)
      modifies this`log, this`effects
      ensures rethrown == None && KeepsState()
      ensures log == old(log) + [BannerRecord("AfterEach failed for " + Test(), FailureRule)]
        + CollectionRecords(Tracked(), TargetPath(testClass, "afterEach"), mkdirs, fetch)
      ensures effects == old(effects) + CollectionEffects(Tracked(), TargetPath(testClass, "afterEach"), mkdirs, fetch)
    {
      log := log + [BannerRecord("AfterEach failed for " + Test(), FailureRule)];
      CollectLogs(testClass, "afterEach", mkdirs, fetch);
      rethrown := None;
    }

    /** testSuccessful: reports the test as passed. */
    method TestSuccessful()
      modifies this`log
      ensures KeepsState()
      ensures log == old(log) + [BannerRecord("Test PASSED " + Test(), SuiteRule)]
    {
      log := log + [BannerRecord("Test PASSED " + Test(), SuiteRule)];
    }

    /** testFailed: reports the test as failed; logs were collected where it failed. */
    method TestFailed(cause: Throwable)
      modifies this`log
      ensures KeepsState() && effects == old(effects)
      ensures log == old(log) + [BannerRecord("Test FAILED " + Test(), FailureRule)]
    {
      log := log + [BannerRecord("Test FAILED " + Test(), FailureRule)];
    }

    /** interceptAfterAllMethod: announces the afterAll phase and runs it, passing its outcome on. */
    method InterceptAfterAllMethod(proceed: Option<Throwable>) returns (thrown: Option<Throwable>)
      modifies this`log
      ensures thrown == proceed && KeepsState()
      ensures log == old(log) + [BannerRecord("Starting afterAll for " + Suite(), PhaseRule)]
    {
      log := log + [BannerRecord("Starting afterAll for " + Suite(), PhaseRule)];
      thrown := proceed;
    }

    /** afterAll: closes the suite. */
    method AfterAll()
      modifies this`log
      ensures KeepsState()
      ensures log == old(log) + [BannerRecord("Ending Test Suite " + Suite(), SuiteRule)]
    {
      log := log + [BannerRecord("Ending Test Suite " + Suite(), SuiteRule)];
    }

    /** handleAfterAllMethodExecutionException: reports, collects logs, and swallows the failure. */
    method HandleAfterAllMethodExecutionException(testClass: TestClass, throwable: Throwable,
                                                  mkdirs: Path -> Outcome, fetch: (string, Option<Path>) -> Outcome)
      returns (rethrown: Option<Throwable>)
      modifies this`log, this`effects
      ensures rethrown == None && KeepsState()
      ensures log == old(log) + [BannerRecord("AfterAll failed for " + Suite(), FailureRule)]
        + CollectionRecords(Tracked(), TargetPath(testClass, "afterAll"), mkdirs, fetch)
      ensures effects == old(effects) + CollectionEffects(Tracked(), TargetPath(testClass, "afterAll"), mkdirs, fetch)
    {
      log := log + [BannerRecord("AfterAll failed for " + Suite(), FailureRule)];
      CollectLogs(testClass, "afterAll", mkdirs, fetch);
      rethrown := None;
    }

    /**
     * collectLogs: with nothing tracked, warns and stops. Otherwise creates the
     * target directory (a failure is logged and the directory becomes null), then
     * fetches the logs of each tracked namespace in order; the first failed fetch
     * is logged and ends the loop. Nothing escapes.
     */
    method CollectLogs(testClass: TestClass, failedStage: string,
                       mkdirs: Path -> Outcome, fetch: (string, Option<Path>) -> Outcome)
      requires ExtDir(failedStage, methodName).Some?
      modifies this`log, this`effects
      ensures log == old(log) + CollectionRecords(old(Tracked()), old(TargetPath(testClass, failedStage)), mkdirs, fetch)
      ensures effects == old(effects) + CollectionEffects(old(Tracked()), old(TargetPath(testClass, failedStage)), mkdirs, fetch)
    {
      log := log + [LogRecord(Info, CollectingLogs)];
      if namespaces == null || |namespaces.items| == 0 {
        log := log + [LogRecord(Warning, NoNamespacesWarning)];
        return;
      }
      var tracked := namespaces.items;
      var path := [logsDir, testClass.simpleName, ExtDir(failedStage, methodName).value];
      assert tracked == Tracked() && path == TargetPath(testClass, failedStage);
      CollectionSteps(tracked, path, mkdirs, fetch);
      effects := effects + [CreateDirectories(path)];
      var made := mkdirs(path);
      log := log + WarningOf(made);
      var resultDir := if made.Pass? then Some(path) else None;
      var calls, outcome := FetchAll(tracked, resultDir, fetch);
      effects := effects + calls;
      log := log + WarningOf(outcome);
    }
  }

  /**
   * Two resolutions in one class: the list the first one returned is the tracked
   * list, so it also holds the second one's namespaces; the second list is new.
   */
  method ResolveTwice(w: IntegrationTestWatcher, first: int, mint1: int -> Result<string, string>,
                      second: int, mint2: int -> Result<string, string>)
    returns (r1: Result<NamespaceList, ResolutionError>, r2: Result<NamespaceList, ResolutionError>)
    requires w.namespaces == null
    modifies w
    ensures r1.Success? && r2.Success? ==>
      w.namespaces == r1.value && r2.value != r1.value
      && r1.value.items == Create(mint1, first).names + Create(mint2, second).names
      && r2.value.items == Create(mint2, second).names
  {
    r1 := w.ResolveParameter(Some(first), mint1);
    if r1.Failure? {
      return r1, r1;
    }
    r2 := w.ResolveParameter(Some(second), mint2);
  }

  /**
   * A failing test body runs through the interceptor and the handler, and the
   * runner gets back the very throwable the body threw.
   */
  method FailingTestBody(w: IntegrationTestWatcher, testClass: TestClass, failure: Throwable,
                         mkdirs: Path -> Outcome, fetch: (string, Option<Path>) -> Outcome)
    returns (reported: Option<Throwable>)
    requires w.methodName.Some?
    modifies w
    ensures reported == Some(failure)
    ensures w.Tracked() == old(w.Tracked())
  {
    var thrown := w.InterceptTestMethod(Some(failure));
    reported := thrown;
    if thrown.Some? {
      reported := w.HandleTestExecutionException(testClass, thrown.value, mkdirs, fetch);
    }
  }
}
