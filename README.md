# IntegrationTestWatcher, modelled in Dafny

`IntegrationTestWatcher` is the JUnit 5 extension of the WebLogic Kubernetes
Operator's integration tests. It does three things:

- it prints a highlighted banner at every step of a test class's life cycle
  (suite start and end, the beforeAll/beforeEach/test/afterEach/afterAll
  phases, passed and failed tests);
- as a parameter resolver, it hands a test the `List<String>` of freshly
  created Kubernetes namespaces that the `@ITNamespaces(numofns = n)`
  annotation asks for, and it keeps every namespace it has handed out in its
  own tracked list;
- when beforeAll, beforeEach, the test, afterEach or afterAll fails, it
  collects the logs of the tracked namespaces, in order, until the first
  retrieval error, into
  `<java.io.tmpdir>/<test class simple name>/<extension dir>`. testFailed
  collects nothing.

The model is split into these modules:

- `Wrappers` (wrappers.dfy) holds `Option`, `Result` and the pass/fail
  `Outcome` of a collaborator call.
- `Strings` (strings.dfy) holds the Java string behaviour the watcher relies
  on:
  - `String.repeat`;
  - string conversion of a null `String`, which gives "null";
  - `List.toString`;
  - a line view used to state the banner layout.
- `Banner` (banner.dfy) holds `printHeader`.
- `LogLayout` (layout.dfy) holds `getExtDir` and the specification of
  `collectLogs`: which external calls it makes, in which order, and which
  records it logs. It also holds the imperative fetch loop `FetchAll`.
- `Provisioning` (provisioning.dfy) holds the namespace-creation loop of
  `resolveParameter` (`MintNamespaces`) and its specification `Create`.
- `Watcher` (watcher.dfy) holds the extension itself as a class with the
  source's fields `className`, `methodName` and `namespaces`, and one method
  per JUnit callback.

The tracked list is a `NamespaceList` object, because the source shares it:
after the first resolution, the tracked list is the very list that test
received.

The collaborators are parameters:

- `mint(i)` is the reply of the i-th `createUniqueNamespace` call of one
  resolution: a name, or the message of the `ApiException`.
- `mkdirs` is the outcome of `Files.createDirectories`.
- `fetch` is the outcome of `LoggingUtil.generateLog` for a namespace and a
  directory. A `None` directory stands for the null `resultDir`.
- `LOGS_DIR` is a constructor argument.

The logger is the ghost sequence `log` of `LogRecord`s. The calls into
collaborators are the ghost sequence `effects`.

Two behaviours of the code are easy to misread:

- Only `handleTestExecutionException` rethrows the throwable, although every
  handler declares `throws Throwable`. The beforeAll, beforeEach, afterEach and
  afterAll handlers collect logs and then return normally, so they swallow the
  failure. Their `rethrown` result is `None`.
- One `try` encloses the whole `generateLog` loop, so the first failing
  namespace ends it. The remaining namespaces get no logs.

## Model

| member | source | states |
|---|---|---|
| Strings.RepeatChar | new-integration-tests/src/test/java/oracle/weblogic/kubernetes/extensions/IntegrationTestWatcher.java:343 | `rc.repeat(n)` of a one-character rule is exactly n copies of that character |
| Strings.RepeatLength | new-integration-tests/src/test/java/oracle/weblogic/kubernetes/extensions/IntegrationTestWatcher.java:343 | `s.repeat(n)` has length n·\|s\| |
| Strings.UnlinesLines | new-integration-tests/src/test/java/oracle/weblogic/kubernetes/extensions/IntegrationTestWatcher.java:343 | the line view of a logged text loses nothing: joining its lines with line breaks gives the text back |
| Strings.ListText | new-integration-tests/src/test/java/oracle/weblogic/kubernetes/extensions/IntegrationTestWatcher.java:101 | the logged `toString()` of the tracked list is bracketed, an empty list prints as "[]", and a one-item list as "[item]" |
| Strings.ListTextAppend | new-integration-tests/src/test/java/oracle/weblogic/kubernetes/extensions/IntegrationTestWatcher.java:101 | a name appended to a non-empty tracked list is printed last, after ", ", so the logged list shows the names in list order |
| Strings.JoinAppend | new-integration-tests/src/test/java/oracle/weblogic/kubernetes/extensions/IntegrationTestWatcher.java:101 | joining a list with one more name gives the earlier text, ", ", and that name |
| Banner.HeaderLayout | new-integration-tests/src/test/java/oracle/weblogic/kubernetes/extensions/IntegrationTestWatcher.java:342-344 | a banner is five lines: empty, a rule exactly as long as the message and made only of the rule character, the message, the same rule, empty |
| Banner.HeaderExample | new-integration-tests/src/test/java/oracle/weblogic/kubernetes/extensions/IntegrationTestWatcher.java:342-344 | the banner of "ABC" under '-' is "\n---\nABC\n---\n" |
| LogLayout.ExtDirNamesMethod | new-integration-tests/src/test/java/oracle/weblogic/kubernetes/extensions/IntegrationTestWatcher.java:321-335 | a beforeEach, afterEach or test directory starts with the method name; it equals the name exactly for the test stage; otherwise the name is followed by "_" and the stage |
| LogLayout.ExtDirIdentifiesMethod | new-integration-tests/src/test/java/oracle/weblogic/kubernetes/extensions/IntegrationTestWatcher.java:321-335 | for a per-method stage, two methods with the same directory have the same name |
| LogLayout.ExtDirSeparatesStages | new-integration-tests/src/test/java/oracle/weblogic/kubernetes/extensions/IntegrationTestWatcher.java:323-330 | one method's beforeEach, afterEach and test failures go to three different directories |
| LogLayout.ExtDirOtherStage | new-integration-tests/src/test/java/oracle/weblogic/kubernetes/extensions/IntegrationTestWatcher.java:331-332 | any other stage (beforeAll, afterAll) is its own directory name, whatever the method name |
| LogLayout.ExtDirExamples | new-integration-tests/src/test/java/oracle/weblogic/kubernetes/extensions/IntegrationTestWatcher.java:321-335 | "testX_beforeEach", "testY", "afterAll", and "null_afterEach" when no method has run yet |
| LogLayout.FirstFailure | new-integration-tests/src/test/java/oracle/weblogic/kubernetes/extensions/IntegrationTestWatcher.java:307-313 | the index of the first namespace whose log retrieval fails: every earlier one passes, and the one at the index fails |
| LogLayout.FetchAll | new-integration-tests/src/test/java/oracle/weblogic/kubernetes/extensions/IntegrationTestWatcher.java:307-313 | the loop calls generateLog on the namespaces in order, up to and including the first failure, and reports that failure (or success) |
| LogLayout.CollectNothingTracked | new-integration-tests/src/test/java/oracle/weblogic/kubernetes/extensions/IntegrationTestWatcher.java:293-298 | with no tracked namespace, collecting logs calls nothing outside and logs exactly "Collecting logs..." followed by the empty-list warning |
| LogLayout.CollectInOrder | new-integration-tests/src/test/java/oracle/weblogic/kubernetes/extensions/IntegrationTestWatcher.java:299-313 | otherwise the directory is created first; then generateLog runs on the tracked namespaces in order, with the directory or null if creation failed; every call before the last passes; when all pass, every namespace is visited; an early stop ends on a failed fetch |
| LogLayout.CollectStopsAtFirstFailure | new-integration-tests/src/test/java/oracle/weblogic/kubernetes/extensions/IntegrationTestWatcher.java:307-313 | a namespace after a failing one gets no generateLog call, and the message of a failed fetch at or before it is logged as a warning |
| Provisioning.CreateFromMeaning | new-integration-tests/src/test/java/oracle/weblogic/kubernetes/extensions/IntegrationTestWatcher.java:90-95 | creation from request i on: the names are the replies of the successful requests before the first failure, each request is made once in order up to that failure, and the failure is that request's message |
| Provisioning.CreateAll | new-integration-tests/src/test/java/oracle/weblogic/kubernetes/extensions/IntegrationTestWatcher.java:90-95 | when every request succeeds, there are max(0, numofns) names, the i-th being the reply of request i, with no failure |
| Provisioning.MintNamespaces | new-integration-tests/src/test/java/oracle/weblogic/kubernetes/extensions/IntegrationTestWatcher.java:89-95 | the creation loop produces exactly the names, calls and failure of the specification `Create` |
| Watcher.SupportsRawListOnly | new-integration-tests/src/test/java/oracle/weblogic/kubernetes/extensions/IntegrationTestWatcher.java:73-76 | only the raw parameter type decides: `List` with any type arguments is supported, `ArrayList` is not |
| Watcher.NamespaceList.AddAll | new-integration-tests/src/test/java/oracle/weblogic/kubernetes/extensions/IntegrationTestWatcher.java:97 | addAll appends the other list's names, in order |
| Watcher.IntegrationTestWatcher.constructor | new-integration-tests/src/test/java/oracle/weblogic/kubernetes/extensions/IntegrationTestWatcher.java:55-62 | a new watcher has no class name, no method name, no tracked list, and has logged nothing |
| Watcher.IntegrationTestWatcher.ResolveParameter | new-integration-tests/src/test/java/oracle/weblogic/kubernetes/extensions/IntegrationTestWatcher.java:86-103 | without the annotation it fails and changes nothing. A failed creation fails with the assertion message and tracks nothing new. Otherwise it returns a fresh list of the created names; the first resolution makes that list the tracked list itself, and later ones append to the tracked list. It logs one "Created a new namespace called" record per created name, in order, and then the tracked list |
| Watcher.IntegrationTestWatcher.BeforeAll | new-integration-tests/src/test/java/oracle/weblogic/kubernetes/extensions/IntegrationTestWatcher.java:110-114 | records the class name and logs the "+" suite banner, then the "-" beforeAll banner |
| Watcher.IntegrationTestWatcher.HandleBeforeAllMethodExecutionException | new-integration-tests/src/test/java/oracle/weblogic/kubernetes/extensions/IntegrationTestWatcher.java:123-127 | logs the "!" banner, collects logs into the "beforeAll" directory, and does not rethrow |
| Watcher.IntegrationTestWatcher.BeforeEach | new-integration-tests/src/test/java/oracle/weblogic/kubernetes/extensions/IntegrationTestWatcher.java:134-137 | records the method name and logs the "-" beforeEach banner |
| Watcher.IntegrationTestWatcher.HandleBeforeEachMethodExecutionException | new-integration-tests/src/test/java/oracle/weblogic/kubernetes/extensions/IntegrationTestWatcher.java:146-150 | logs the "!" banner, collects logs into "<method>_beforeEach", and does not rethrow |
| Watcher.IntegrationTestWatcher.BeforeTestExecution | new-integration-tests/src/test/java/oracle/weblogic/kubernetes/extensions/IntegrationTestWatcher.java:157-159 | logs the "-" end-of-beforeEach banner and changes no field |
| Watcher.IntegrationTestWatcher.InterceptTestMethod | new-integration-tests/src/test/java/oracle/weblogic/kubernetes/extensions/IntegrationTestWatcher.java:170-175 | logs the "-" test banner, then passes on whatever the test body threw |
| Watcher.IntegrationTestWatcher.HandleTestExecutionException | new-integration-tests/src/test/java/oracle/weblogic/kubernetes/extensions/IntegrationTestWatcher.java:184-189 | logs the "!" banner, collects logs into the method's own directory, and rethrows the same throwable |
| Watcher.IntegrationTestWatcher.InterceptAfterEachMethod | new-integration-tests/src/test/java/oracle/weblogic/kubernetes/extensions/IntegrationTestWatcher.java:200-205 | logs the "-" afterEach banner, then passes on the afterEach outcome |
| Watcher.IntegrationTestWatcher.AfterEach | new-integration-tests/src/test/java/oracle/weblogic/kubernetes/extensions/IntegrationTestWatcher.java:212-214 | logs the "-" end-of-afterEach banner |
| Watcher.IntegrationTestWatcher.HandleAfterEachMethodExecutionException | new-integration-tests/src/test/java/oracle/weblogic/kubernetes/extensions/IntegrationTestWatcher.java:223-227 | logs the "!" banner, collects logs into "<method>_afterEach", and does not rethrow |
| Watcher.IntegrationTestWatcher.TestSuccessful | new-integration-tests/src/test/java/oracle/weblogic/kubernetes/extensions/IntegrationTestWatcher.java:234-236 | logs the "+" PASSED banner |
| Watcher.IntegrationTestWatcher.TestFailed | new-integration-tests/src/test/java/oracle/weblogic/kubernetes/extensions/IntegrationTestWatcher.java:244-246 | logs the "!" FAILED banner and calls nothing outside |
| Watcher.IntegrationTestWatcher.InterceptAfterAllMethod | new-integration-tests/src/test/java/oracle/weblogic/kubernetes/extensions/IntegrationTestWatcher.java:257-262 | logs the "-" afterAll banner, then passes on the afterAll outcome |
| Watcher.IntegrationTestWatcher.AfterAll | new-integration-tests/src/test/java/oracle/weblogic/kubernetes/extensions/IntegrationTestWatcher.java:269-271 | logs the "+" end-of-suite banner |
| Watcher.IntegrationTestWatcher.HandleAfterAllMethodExecutionException | new-integration-tests/src/test/java/oracle/weblogic/kubernetes/extensions/IntegrationTestWatcher.java:281-285 | logs the "!" banner, collects logs into the "afterAll" directory, and does not rethrow |
| Watcher.IntegrationTestWatcher.CollectLogs | new-integration-tests/src/test/java/oracle/weblogic/kubernetes/extensions/IntegrationTestWatcher.java:292-314 | makes exactly the calls, and logs exactly the records, of the collection specification for the tracked namespaces and `<LOGS_DIR>/<simple name>/<extension dir>` |
| Watcher.ResolveTwice | new-integration-tests/src/test/java/oracle/weblogic/kubernetes/extensions/IntegrationTestWatcher.java:96-102 | after two successful resolutions, the first test's list is the tracked list and also holds the second test's namespaces; the second list is a different object holding only its own |
| Watcher.FailingTestBody | new-integration-tests/src/test/java/oracle/weblogic/kubernetes/extensions/IntegrationTestWatcher.java:170-189 | a throwable from the test body reaches the runner unchanged through the interceptor and the handler, and the tracked namespaces stay as they were |

## Left out

- JUnit's `ExtensionContext`, `ParameterContext` and `Invocation` objects are left out. A hook receives only the values it reads: the test class's names, the method name, the annotation's `numofns`, and what `proceed()` threw.
- The logger's formatting, levels and handlers are left out. A logged message is a `LogRecord` with its level and its final text.
- Unchecked exceptions thrown by collaborators are left out. The model only has the checked `IOException`/`ApiException` outcomes that the source catches.
- HandleTestExecutionException: requires `methodName` to be set. JUnit always runs beforeEach on the same extension instance before the test handler, and with a null method name and a non-empty tracked list `Paths.get` would throw a `NullPointerException`. With nothing tracked, collectLogs returns before `Paths.get`. That path is not modelled.
- The full text of the `AssertionFailedError` that `assertDoesNotThrow` raises is not modelled. The model keeps its message and the `ApiException` message as the cause.
- `ex.getMessage()` returning null is not modelled. A failed collaborator call always carries a message string.
- `fetch` and `mkdirs` are functions of their arguments. Collaborators whose answer changes between identical calls are not modelled.
- String length is counted in Dafny characters, not Java UTF-16 code units. The two differ only for characters outside the Basic Multilingual Plane.
- Overflow of the `int` loop counter in `resolveParameter` is not modelled. It would need more than 2^31 namespaces.
- The order between a log record and a collaborator call is not modelled. `log` and `effects` are separate ghost sequences, so, for example, that "Collecting logs..." is logged before `createDirectories`, or that each "Created a new namespace called" record follows its `createUniqueNamespace` call, is not stated. Each sequence keeps its own order.
- Changes that a test makes to the list it received are not modelled, except through the shared `NamespaceList` object.
- ItSimpleOperatorValidation.java and ReferencingObject.java are not part of this model. The first is a separate integration test that does not use the watcher; the second is an unrelated type.
