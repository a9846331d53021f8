/** The report root, its builder, and the JUnit XML it writes: the element tree a report
    describes, the writer events that tree is sent as, and the loop that sends them. */
module Reports {
  import opened Wrappers
  import opened Decimals
  import opened Xml
  import opened Collections

  /** The two ways writing a report can fail. */
  datatype ReportError =
    | Io     // the `std::io::Error` of stripping escape codes from captured output
    | Write  // a failure of the XML emitter or of the sink it writes to

  /** Routines the writer calls whose behaviour lies outside this model. */
  datatype Externals = Externals(
    // removes ANSI escape codes from captured output and decodes the bytes left; None when it fails
    stripAnsi: string -> Option<string>,
    // the text of a duration as a floating-point number of seconds
    seconds: Duration -> string,
    // the RFC 3339 text of a timestamp
    rfc3339: Timestamp -> string)

  // ---------------------------------------------------------------------------
  // The document tree

  /** The attributes of a `testsuite` element, in the order written. */
  function SuiteAttributes(id: nat, ts: TestSuite, ext: Externals): seq<Attribute>
    reads ts
  {
    [ Attribute("id", Decimal(id)),
      Attribute("name", ts.name),
      Attribute("package", ts.package),
      Attribute("tests", Decimal(ts.Tests())),
      Attribute("errors", Decimal(ts.Errors())),
      Attribute("failures", Decimal(ts.Failures())),
      Attribute("hostname", ts.hostname),
      Attribute("timestamp", ext.rfc3339(ts.timestamp)),
      Attribute("time", ext.seconds(ts.Time())) ]
  }

  /** The attributes of a `testcase` element: name, time, then classname and file when set. */
  function CaseAttributes(tc: TestCase, ext: Externals): seq<Attribute> {
    [Attribute("name", tc.name), Attribute("time", ext.seconds(tc.time))]
    + (if tc.classname.Some? then [Attribute("classname", tc.classname.value)] else [])
    + (if tc.filepath.Some? then [Attribute("file", tc.filepath.value)] else [])
  }

  /** An element with the text as its CDATA content, when there is a text. */
  function CapturedOutput(name: string, text: Option<string>): seq<Node> {
    if text.Some? then [Element(name, [], [CDataNode(text.value)])] else []
  }

  /** The text with escape codes stripped, as a CDATA section, when there is a text. */
  function StrippedOutput(text: Option<string>, ext: Externals): Result<seq<Node>, ReportError> {
    match text
    case None => Ok([])
    case Some(t) =>
      match ext.stripAnsi(t)
      case None => Err(Io)
      case Some(s) => Ok([CDataNode(s)])
  }

  /** The `error` or `failure` element of a case: type and message, then the case's stripped
      stdout and stderr. The cause is not written. */
  function ProblemElement(name: string, kind: string, message: string, tc: TestCase, ext: Externals)
    : Result<Node, ReportError>
  {
    match StrippedOutput(tc.systemOut, ext)
    case Err(e) => Err(e)
    case Ok(out) =>
      match StrippedOutput(tc.systemErr, ext)
      case Err(e) => Err(e)
      case Ok(err) => Ok(Element(name, [Attribute("type", kind), Attribute("message", message)], out + err))
  }

  /** The children of a `testcase` element, which depend on the outcome. */
  function CaseChildren(tc: TestCase, ext: Externals): Result<seq<Node>, ReportError> {
    match tc.result
    case Success => Ok(CapturedOutput("system-out", tc.systemOut) + CapturedOutput("system-err", tc.systemErr))
    case Skipped => Ok([Element("skipped", [], [])])
    case Error(kind, message, _) =>
      (match ProblemElement("error", kind, message, tc, ext)
       case Err(e) => Err(e)
       case Ok(n) => Ok([n]))
    case Failure(kind, message, _) =>
      (match ProblemElement("failure", kind, message, tc, ext)
       case Err(e) => Err(e)
       case Ok(n) => Ok([n]))
  }

  function CaseElement(tc: TestCase, ext: Externals): Result<Node, ReportError> {
    match CaseChildren(tc, ext)
    case Err(e) => Err(e)
    case Ok(kids) => Ok(Element("testcase", CaseAttributes(tc, ext), kids))
  }

  /** The values of rs in order when every one is Ok; otherwise the first error, as the
      writer's `?` stops at the first failure. */
  function Collect<T, E>(rs: seq<Result<T, E>>): Result<seq<T>, E> {
    if rs == [] then Ok([])
    else
      match Collect(rs[..|rs| - 1])
      case Err(e) => Err(e)
      case Ok(vs) =>
        match rs[|rs| - 1]
        case Err(e) => Err(e)
        case Ok(v) => Ok(vs + [v])
  }

  /** The element of each case, in order. */
  function CaseResults(cs: seq<TestCase>, ext: Externals): (rs: seq<Result<Node, ReportError>>)
    ensures |rs| == |cs| && forall j | 0 <= j < |cs| :: rs[j] == CaseElement(cs[j], ext)
  {
    seq(|cs|, j requires 0 <= j < |cs| => CaseElement(cs[j], ext))
  }

  /** The `testcase` elements of cs in order, or the error of the first case that fails. */
  function CaseElements(cs: seq<TestCase>, ext: Externals): Result<seq<Node>, ReportError> {
    Collect(CaseResults(cs, ext))
  }

  /** The `testsuite` element of the suite at index id: its cases, then its own stdout and
      stderr when set. */
  function SuiteElement(id: nat, ts: TestSuite, ext: Externals): Result<Node, ReportError>
    reads ts
  {
    match CaseElements(ts.testcases, ext)
    case Err(e) => Err(e)
    case Ok(cases) =>
      Ok(Element("testsuite", SuiteAttributes(id, ts, ext),
                 cases + CapturedOutput("system-out", ts.systemOut) + CapturedOutput("system-err", ts.systemErr)))
  }

  /** The element of each suite, numbered from zero. */
  function SuiteResults(ss: seq<TestSuite>, ext: Externals): (rs: seq<Result<Node, ReportError>>)
    reads ss
    ensures |rs| == |ss| && forall i | 0 <= i < |ss| :: rs[i] == SuiteElement(i, ss[i], ext)
  {
    seq(|ss|, i requires 0 <= i < |ss| reads ss => SuiteElement(i, ss[i], ext))
  }

  /** The `testsuite` elements in order, or the error of the first suite that fails. */
  function SuiteElements(ss: seq<TestSuite>, ext: Externals): Result<seq<Node>, ReportError>
    reads ss
  {
    Collect(SuiteResults(ss, ext))
  }

  /** The `testsuites` root element of a report with the suites ss. */
  function Document(ss: seq<TestSuite>, ext: Externals): Result<Node, ReportError>
    reads ss
  {
    match SuiteElements(ss, ext)
    case Err(e) => Err(e)
    case Ok(suites) => Ok(Element("testsuites", [], suites))
  }

  /** The events `write_xml` sends to the emitter, or the error that stops it. */
  function XmlEvents(ss: seq<TestSuite>, ext: Externals): Result<seq<XmlEvent>, ReportError>
    reads ss
  {
    match Document(ss, ext)
    case Err(e) => Err(e)
    case Ok(root) => Ok(Events(root))
  }

  /** Writing the case fails: it is an error or failure whose captured output cannot be stripped. */
  predicate StripFails(tc: TestCase, ext: Externals) {
    && (tc.result.Error? || tc.result.Failure?)
    && ((tc.systemOut.Some? && ext.stripAnsi(tc.systemOut.value).None?)
        || (tc.systemErr.Some? && ext.stripAnsi(tc.systemErr.value).None?))
  }

  // ---------------------------------------------------------------------------
  // Collecting results in order

  /** Collecting succeeds exactly when every result is Ok, and then keeps their values one for
      one, in order. */
  lemma {:induction false} CollectOk<T, E>(rs: seq<Result<T, E>>)
    ensures Collect(rs).Ok? <==> forall i | 0 <= i < |rs| :: rs[i].Ok?
    ensures Collect(rs).Ok? ==>
      && |Collect(rs).value| == |rs|
      && forall i | 0 <= i < |rs| :: Collect(rs).value[i] == rs[i].value
  {
    if rs != [] {
      var init := rs[..|rs| - 1];
      CollectOk(init);
      assert forall i | 0 <= i < |init| :: init[i] == rs[i];
    }
  }

  /** When collecting fails, its error is that of the first result that is not Ok. */
  lemma {:induction false} CollectFirstError<T, E>(rs: seq<Result<T, E>>)
    ensures Collect(rs).Err? ==>
      exists i | 0 <= i < |rs| :: rs[i].Err? && Collect(rs).error == rs[i].error
                                  && forall k | 0 <= k < i :: rs[k].Ok?
  {
    if rs != [] && Collect(rs).Err? {
      var n := |rs| - 1;
      var init := rs[..n];
      assert forall i | 0 <= i < |init| :: init[i] == rs[i];
      if Collect(init).Err? {
        CollectFirstError(init);
        var i :| 0 <= i < |init| && init[i].Err? && Collect(init).error == init[i].error
                 && forall k | 0 <= k < i :: init[k].Ok?;
        assert rs[i].Err? && Collect(rs).error == rs[i].error && forall k | 0 <= k < i :: rs[k].Ok?;
      } else {
        CollectOk(init);
        assert rs[n].Err? && Collect(rs).error == rs[n].error && forall k | 0 <= k < n :: rs[k].Ok?;
      }
    }
  }

  /** So when every result that fails fails with e, collecting fails with e. */
  lemma CollectError<T, E>(rs: seq<Result<T, E>>, e: E)
    requires forall i | 0 <= i < |rs| :: rs[i].Err? ==> rs[i].error == e
    ensures Collect(rs).Err? ==> Collect(rs).error == e
  {
    CollectFirstError(rs);
  }

  /** One more Ok result extends the collected values by its value. */
  lemma CollectSnoc<T, E>(rs: seq<Result<T, E>>, j: nat, done: seq<T>)
    requires j < |rs| && Collect(rs[..j]) == Ok(done) && rs[j].Ok?
    ensures Collect(rs[..j + 1]) == Ok(done + [rs[j].value])
  {
    assert rs[..j + 1][..j] == rs[..j];
  }

  // ---------------------------------------------------------------------------
  // Properties of the document

  /** The attributes of a `testsuite` come in the fixed order id, name, package, tests, errors,
      failures, hostname, timestamp, time, and carry the suite's own texts. */
  lemma SuiteAttributeOrder(id: nat, ts: TestSuite, ext: Externals)
    ensures var attrs := SuiteAttributes(id, ts, ext);
      && Names(attrs) == ["id", "name", "package", "tests", "errors", "failures", "hostname", "timestamp", "time"]
      && attrs[1].value == ts.name && attrs[2].value == ts.package && attrs[6].value == ts.hostname
      && attrs[7].value == ext.rfc3339(ts.timestamp) && attrs[8].value == ext.seconds(ts.Time())
  {
    var attrs := SuiteAttributes(id, ts, ext);
    var names := ["id", "name", "package", "tests", "errors", "failures", "hostname", "timestamp", "time"];
    assert |Names(attrs)| == |names|;
    forall k | 0 <= k < |names| ensures Names(attrs)[k] == names[k] { }
  }

  /** The id, tests, errors and failures attributes are decimal numerals that read back as the
      suite's index and its aggregate counts. */
  lemma SuiteCountAttributes(id: nat, ts: TestSuite, ext: Externals)
    ensures Denotes(SuiteAttributes(id, ts, ext)[0].value, id)
    ensures Denotes(SuiteAttributes(id, ts, ext)[3].value, ts.Tests())
    ensures Denotes(SuiteAttributes(id, ts, ext)[4].value, ts.Errors())
    ensures Denotes(SuiteAttributes(id, ts, ext)[5].value, ts.Failures())
  {
    DecimalDenotes(id);
    DecimalDenotes(ts.Tests());
    DecimalDenotes(ts.Errors());
    DecimalDenotes(ts.Failures());
  }

  /** A `testcase` carries name and time, then classname exactly when it is set, then file
      exactly when the path is set. */
  lemma CaseAttributesShape(tc: TestCase, ext: Externals)
    ensures var attrs := CaseAttributes(tc, ext);
      && Names(attrs) == ["name", "time"] + (if tc.classname.Some? then ["classname"] else [])
                                          + (if tc.filepath.Some? then ["file"] else [])
      && attrs[0].value == tc.name && attrs[1].value == ext.seconds(tc.time)
      && (tc.classname.Some? ==> attrs[2].value == tc.classname.value)
      && (tc.filepath.Some? ==> attrs[|attrs| - 1].value == tc.filepath.value)
  {
    var attrs := CaseAttributes(tc, ext);
    var names := ["name", "time"] + (if tc.classname.Some? then ["classname"] else [])
                                  + (if tc.filepath.Some? then ["file"] else []);
    assert |Names(attrs)| == |names|;
    forall k | 0 <= k < |names| ensures Names(attrs)[k] == names[k] { }
  }

  /** A case is written unless stripping its captured output fails, and then the error is Io. */
  lemma CaseElementFails(tc: TestCase, ext: Externals)
    ensures CaseElement(tc, ext).Ok? <==> !StripFails(tc, ext)
    ensures CaseElement(tc, ext).Err? ==> CaseElement(tc, ext).error == Io
  {
  }

  /** The children of a `testcase` element for each outcome: the captured output as
      `system-out` and `system-err` for a success, an empty `skipped` for a skipped case, and
      for an error or failure one `error` or `failure` element with type then message, holding
      the stripped stdout then the stripped stderr as CDATA. */
  lemma CaseElementShape(tc: TestCase, ext: Externals)
    requires CaseElement(tc, ext).Ok?
    ensures var n := CaseElement(tc, ext).value;
      && n.Element? && n.name == "testcase" && n.attributes == CaseAttributes(tc, ext)
      && (tc.result.Success? ==>
            n.children == CapturedOutput("system-out", tc.systemOut) + CapturedOutput("system-err", tc.systemErr))
      && (tc.result.Skipped? ==> n.children == [Element("skipped", [], [])])
      && ((tc.result.Error? || tc.result.Failure?) ==>
            && |n.children| == 1 && n.children[0].Element?
            && n.children[0].name == (if tc.result.Error? then "error" else "failure")
            && n.children[0].attributes
               == [Attribute("type", tc.result.kind), Attribute("message", tc.result.message)]
            && var body := n.children[0].children;
               && |body| == Indicator(tc.systemOut.Some?) + Indicator(tc.systemErr.Some?)
               && (tc.systemOut.Some? ==> body[0] == CDataNode(ext.stripAnsi(tc.systemOut.value).value))
               && (tc.systemErr.Some? ==> body[|body| - 1] == CDataNode(ext.stripAnsi(tc.systemErr.value).value)))
  {
  }

  /** The captured output elements: present exactly when the text is, with the text as CDATA. */
  lemma CapturedOutputShape(name: string, text: Option<string>)
    ensures |CapturedOutput(name, text)| == Indicator(text.Some?)
    ensures text.Some? ==> CapturedOutput(name, text)[0] == Element(name, [], [CDataNode(text.value)])
  {
  }

  /** The cause of an error or failure is never written: changing it leaves the element as it is. */
  lemma CauseNotWritten(tc: TestCase, cause: Option<string>, ext: Externals)
    requires tc.result.Error? || tc.result.Failure?
    ensures CaseElement(tc.(result := tc.result.(cause := cause)), ext) == CaseElement(tc, ext)
  {
  }

  /** So attaching a trace with the builder does not change what is written. */
  lemma TraceNotWritten(tc: TestCase, trace: string, ext: Externals)
    ensures CaseElement(tc.(result := WithCause(tc.result, trace)), ext) == CaseElement(tc, ext)
  {
    if tc.result.Error? || tc.result.Failure? {
      CauseNotWritten(tc, Some(trace), ext);
    }
  }

  /** The case elements follow the cases one for one, in order; they are produced exactly
      when every case can be written, and otherwise the error is Io. */
  lemma CaseElementsInOrder(cs: seq<TestCase>, ext: Externals)
    ensures CaseElements(cs, ext).Ok? <==> forall j | 0 <= j < |cs| :: CaseElement(cs[j], ext).Ok?
    ensures CaseElements(cs, ext).Err? ==> CaseElements(cs, ext).error == Io
    ensures CaseElements(cs, ext).Ok? ==>
      && |CaseElements(cs, ext).value| == |cs|
      && forall j | 0 <= j < |cs| :: CaseElements(cs, ext).value[j] == CaseElement(cs[j], ext).value
  {
    var rs := CaseResults(cs, ext);
    CollectOk(rs);
    forall j | 0 <= j < |cs|
      ensures rs[j].Err? ==> rs[j].error == Io
    {
      CaseElementFails(cs[j], ext);
    }
    CollectError(rs, Io);
  }

  /** A suite is written unless one of its cases cannot be, and then the error is Io. */
  lemma SuiteElementFails(id: nat, ts: TestSuite, ext: Externals)
    ensures SuiteElement(id, ts, ext).Ok? <==> forall j | 0 <= j < |ts.testcases| :: !StripFails(ts.testcases[j], ext)
    ensures SuiteElement(id, ts, ext).Err? ==> SuiteElement(id, ts, ext).error == Io
  {
    CaseElementsInOrder(ts.testcases, ext);
    forall j | 0 <= j < |ts.testcases|
      ensures CaseElement(ts.testcases[j], ext).Ok? <==> !StripFails(ts.testcases[j], ext)
    {
      CaseElementFails(ts.testcases[j], ext);
    }
  }

  /** The children of a `testsuite`: one `testcase` per case in suite order, then the suite's
      `system-out` and `system-err` exactly when set. */
  lemma SuiteElementShape(id: nat, ts: TestSuite, ext: Externals)
    requires SuiteElement(id, ts, ext).Ok?
    ensures var n := SuiteElement(id, ts, ext).value;
      var m := |ts.testcases|;
      && n.Element? && n.name == "testsuite" && n.attributes == SuiteAttributes(id, ts, ext)
      && |n.children| == m + Indicator(ts.systemOut.Some?) + Indicator(ts.systemErr.Some?)
      && (forall j | 0 <= j < m ::
            CaseElement(ts.testcases[j], ext).Ok? && n.children[j] == CaseElement(ts.testcases[j], ext).value)
      && (ts.systemOut.Some? ==> n.children[m] == Element("system-out", [], [CDataNode(ts.systemOut.value)]))
      && (ts.systemErr.Some? ==>
            n.children[|n.children| - 1] == Element("system-err", [], [CDataNode(ts.systemErr.value)]))
  {
    CaseElementsInOrder(ts.testcases, ext);
  }

  /** One `testsuite` element per suite, in report order, whose id is its zero-based index;
      they are produced exactly when every suite can be written, and otherwise the error is Io. */
  lemma SuiteElementsInOrder(ss: seq<TestSuite>, ext: Externals)
    ensures SuiteElements(ss, ext).Ok? <==> forall i | 0 <= i < |ss| :: SuiteElement(i, ss[i], ext).Ok?
    ensures SuiteElements(ss, ext).Err? ==> SuiteElements(ss, ext).error == Io
    ensures SuiteElements(ss, ext).Ok? ==>
      && |SuiteElements(ss, ext).value| == |ss|
      && forall i | 0 <= i < |ss| :: SuiteElements(ss, ext).value[i] == SuiteElement(i, ss[i], ext).value
  {
    var rs := SuiteResults(ss, ext);
    CollectOk(rs);
    forall i | 0 <= i < |ss|
      ensures rs[i].Err? ==> rs[i].error == Io
    {
      SuiteElementFails(i, ss[i], ext);
    }
    CollectError(rs, Io);
  }

  /** The root is a `testsuites` element without attributes whose children are the suites'
      elements in order. */
  lemma DocumentShape(ss: seq<TestSuite>, ext: Externals)
    ensures Document(ss, ext).Ok? <==> forall i | 0 <= i < |ss| :: SuiteElement(i, ss[i], ext).Ok?
    ensures Document(ss, ext).Ok? ==>
      var root := Document(ss, ext).value;
      && root.Element? && root.name == "testsuites" && root.attributes == []
      && |root.children| == |ss|
      && forall i | 0 <= i < |ss| :: root.children[i] == SuiteElement(i, ss[i], ext).value
  {
    SuiteElementsInOrder(ss, ext);
  }

  /** Writing fails exactly when some error or failure case has captured output that cannot
      be stripped, and then with the Io error. */
  lemma WriteFailsOnlyOnStrip(ss: seq<TestSuite>, ext: Externals)
    ensures XmlEvents(ss, ext).Err? <==>
      exists i, j | 0 <= i < |ss| && 0 <= j < |ss[i].testcases| :: StripFails(ss[i].testcases[j], ext)
    ensures XmlEvents(ss, ext).Err? ==> XmlEvents(ss, ext).error == Io
  {
    SuiteElementsInOrder(ss, ext);
    forall i | 0 <= i < |ss|
      ensures SuiteElement(i, ss[i], ext).Ok? <==>
        forall j | 0 <= j < |ss[i].testcases| :: !StripFails(ss[i].testcases[j], ext)
    {
      SuiteElementFails(i, ss[i], ext);
    }
  }

  /** The event stream opens `testsuites` first and closes it last, is well nested with every
      other event inside the root, and reads back as the document tree. */
  lemma StreamShape(ss: seq<TestSuite>, ext: Externals)
    requires XmlEvents(ss, ext).Ok?
    ensures var evs := XmlEvents(ss, ext).value;
      && SingleRooted(evs)
      && evs[0] == StartElement("testsuites", [])
      && evs[|evs| - 1] == EndElement
      && Parse(evs) == Some(Document(ss, ext).value)
  {
    var root := Document(ss, ext).value;
    NodeWellNested(root);
    ParseEvents(root);
  }

  /** An empty report is the `testsuites` start immediately followed by its end. */
  lemma EmptyReportStream(ext: Externals)
    ensures XmlEvents([], ext) == Ok([StartElement("testsuites", []), EndElement])
  {
    var none: seq<TestSuite> := [];
    var root := Element("testsuites", [], []);
    assert SuiteElements(none, ext) == Ok([]);
    assert Document(none, ext) == Ok(root);
    assert EventsOf([]) == [];
    assert Events(root) == [StartElement("testsuites", []), EndElement];
    assert XmlEvents(none, ext) == Ok(Events(root));
  }

  /** Suites with the same contents are written the same way. */
  lemma SameSuitesWriteSame(a: seq<TestSuite>, b: seq<TestSuite>, ext: Externals)
    requires |a| == |b|
    requires forall i | 0 <= i < |a| :: a[i].SameAs(b[i])
    ensures XmlEvents(a, ext) == XmlEvents(b, ext)
  {
    forall i | 0 <= i < |a|
      ensures SuiteElement(i, a[i], ext) == SuiteElement(i, b[i], ext)
    {
      assert SuiteAttributes(i, a[i], ext) == SuiteAttributes(i, b[i], ext);
    }
    assert SuiteResults(a, ext) == SuiteResults(b, ext);
  }

  // ---------------------------------------------------------------------------
  // Events of the parts, as the writer sends them one after the other

  lemma CapturedOutputEvents(name: string, text: Option<string>)
    ensures EventsOf(CapturedOutput(name, text))
            == if text.Some? then [StartElement(name, []), CData(text.value), EndElement] else []
  {
    if text.Some? {
      var n := Element(name, [], [CDataNode(text.value)]);
      EventsOfSingle(n);
      EventsOfSingle(CDataNode(text.value));
    }
  }

  lemma StrippedOutputEvents(text: Option<string>, ext: Externals)
    requires StrippedOutput(text, ext).Ok?
    ensures EventsOf(StrippedOutput(text, ext).value)
            == if text.Some? then [CData(ext.stripAnsi(text.value).value)] else []
  {
    if text.Some? {
      EventsOfSingle(CDataNode(ext.stripAnsi(text.value).value));
    }
  }

  /** The events of a suite: its start, its cases', its own stdout and stderr, its end. */
  lemma SuiteEvents(id: nat, ts: TestSuite, ext: Externals)
    requires SuiteElement(id, ts, ext).Ok?
    ensures Events(SuiteElement(id, ts, ext).value)
            == [StartElement("testsuite", SuiteAttributes(id, ts, ext))]
               + EventsOf(CaseElements(ts.testcases, ext).value)
               + EventsOf(CapturedOutput("system-out", ts.systemOut))
               + EventsOf(CapturedOutput("system-err", ts.systemErr))
               + [EndElement]
  {
    ElementEventsOfRuns("testsuite", SuiteAttributes(id, ts, ext), CaseElements(ts.testcases, ext).value,
                        CapturedOutput("system-out", ts.systemOut), CapturedOutput("system-err", ts.systemErr));
  }

  // ---------------------------------------------------------------------------
  // The report and its writer

  /** The root of a JUnit report: the suites in the order they were added. */
  class Report {
    var testsuites: seq<TestSuite>

    constructor ()
      ensures testsuites == []
    {
      testsuites := [];
    }

    /** Adds one suite at the end. */
    method AddTestsuite(testsuite: TestSuite)
      modifies this
      ensures testsuites == old(testsuites) + [testsuite]
    {
      testsuites := testsuites + [testsuite];
    }

    /** Adds suites in order; the same as adding each of them in turn. */
    method AddTestsuites(suites: seq<TestSuite>)
      modifies this
      ensures testsuites == old(testsuites) + suites
    {
      for i := 0 to |suites|
        invariant testsuites == old(testsuites) + suites[..i]
      {
        AddTestsuite(suites[i]);
        assert suites[..i + 1] == suites[..i] + [suites[i]];
      }
      assert suites[..|suites|] == suites;
    }

    /** Sends the report to the emitter event by event. On success the events sent are
        exactly the report's event stream; it fails exactly when the stream does, with the
        same error. The report is not changed. */
    method WriteXml(ext: Externals) returns (written: seq<XmlEvent>, res: Result<(), ReportError>)
      ensures res.Ok? <==> XmlEvents(testsuites, ext).Ok?
      ensures res.Ok? ==> written == XmlEvents(testsuites, ext).value
      ensures res.Err? ==> res.error == XmlEvents(testsuites, ext).error
    {
      written := [StartElement("testsuites", [])];
      var suiteEvents;
      suiteEvents, res := WriteTestsuites(testsuites, ext);
      written := written + suiteEvents;
      if res.Err? {
        SuiteElementsInOrder(testsuites, ext);
        return;
      }
      written := written + [EndElement];
    }
  }

  /** The events of the suites in order, numbered from zero, as the loop over the suites
      sends them; it stops at the first suite that fails. */
  method WriteTestsuites(ss: seq<TestSuite>, ext: Externals) returns (written: seq<XmlEvent>, res: Result<(), ReportError>)
    ensures res.Ok? <==> SuiteElements(ss, ext).Ok?
    ensures res.Ok? ==> written == EventsOf(SuiteElements(ss, ext).value)
    ensures res.Err? ==> res.error == Io
  {
    written := [];
    ghost var rs := SuiteResults(ss, ext);
    ghost var done: seq<Node> := [];
    for id := 0 to |ss|
      invariant Collect(rs[..id]) == Ok(done)
      invariant written == EventsOf(done)
    {
      var suiteEvents, r := WriteTestsuite(id, ss[id], ext);
      written := written + suiteEvents;
      if r.Err? {
        CollectOk(rs);
        return written, r;
      }
      CollectSnoc(rs, id, done);
      EventsOfAppend(done, [rs[id].value]);
      EventsOfSingle(rs[id].value);
      done := done + [rs[id].value];
    }
    assert rs[..|ss|] == rs;
    res := Ok(());
  }

  /** The events of one suite: its start with the attributes, its cases, its own stdout and
      stderr, its end. */
  method WriteTestsuite(id: nat, ts: TestSuite, ext: Externals) returns (written: seq<XmlEvent>, res: Result<(), ReportError>)
    ensures res.Ok? <==> SuiteElement(id, ts, ext).Ok?
    ensures res.Ok? ==> written == Events(SuiteElement(id, ts, ext).value)
    ensures res.Err? ==> res.error == Io
  {
    written := [StartElement("testsuite", SuiteAttributes(id, ts, ext))];
    var caseEvents;
    caseEvents, res := WriteTestcases(ts.testcases, ext);
    written := written + caseEvents;
    if res.Err? {
      return;
    }
    var out := WriteCaptured("system-out", ts.systemOut);
    var err := WriteCaptured("system-err", ts.systemErr);
    written := written + out + err + [EndElement];
    SuiteEvents(id, ts, ext);
  }

  /** The events of the cases in order, as the loop over a suite's cases sends them; it stops
      at the first case that fails. */
  method WriteTestcases(cs: seq<TestCase>, ext: Externals) returns (written: seq<XmlEvent>, res: Result<(), ReportError>)
    ensures res.Ok? <==> CaseElements(cs, ext).Ok?
    ensures res.Ok? ==> written == EventsOf(CaseElements(cs, ext).value)
    ensures res.Err? ==> res.error == Io
  {
    written := [];
    ghost var rs := CaseResults(cs, ext);
    ghost var done: seq<Node> := [];
    for j := 0 to |cs|
      invariant Collect(rs[..j]) == Ok(done)
      invariant written == EventsOf(done)
    {
      var caseEvents, r := WriteTestcase(cs[j], ext);
      written := written + caseEvents;
      if r.Err? {
        CollectOk(rs);
        return written, r;
      }
      CollectSnoc(rs, j, done);
      EventsOfAppend(done, [rs[j].value]);
      EventsOfSingle(rs[j].value);
      done := done + [rs[j].value];
    }
    assert rs[..|cs|] == rs;
    res := Ok(());
  }

  /** The events of one case, as the body of the loop over the cases sends them. */
  method WriteTestcase(tc: TestCase, ext: Externals) returns (written: seq<XmlEvent>, res: Result<(), ReportError>)
    ensures res.Ok? <==> CaseElement(tc, ext).Ok?
    ensures res.Ok? ==> written == Events(CaseElement(tc, ext).value)
    ensures res.Err? ==> res.error == Io
  {
    written := [StartElement("testcase", CaseAttributes(tc, ext))];
    match tc.result {
      case Success =>
        var out := WriteCaptured("system-out", tc.systemOut);
        var err := WriteCaptured("system-err", tc.systemErr);
        written := written + out + err;
        EventsOfAppend(CapturedOutput("system-out", tc.systemOut), CapturedOutput("system-err", tc.systemErr));
      case Error(kind, message, _) =>
        var problem;
        problem, res := WriteProblem("error", kind, message, tc, ext);
        written := written + problem;
        if res.Err? {
          return;
        }
        EventsOfSingle(ProblemElement("error", kind, message, tc, ext).value);
      case Failure(kind, message, _) =>
        var problem;
        problem, res := WriteProblem("failure", kind, message, tc, ext);
        written := written + problem;
        if res.Err? {
          return;
        }
        EventsOfSingle(ProblemElement("failure", kind, message, tc, ext).value);
      case Skipped =>
        written := written + [StartElement("skipped", []), EndElement];
        EventsOfSingle(Element("skipped", [], []));
    }
    written := written + [EndElement];
    res := Ok(());
  }

  /** The `error` or `failure` element of a case: its start with type and message, the
      stripped stdout and stderr, its end. */
  method WriteProblem(name: string, kind: string, message: string, tc: TestCase, ext: Externals)
    returns (written: seq<XmlEvent>, res: Result<(), ReportError>)
    ensures res.Ok? <==> ProblemElement(name, kind, message, tc, ext).Ok?
    ensures res.Ok? ==> written == Events(ProblemElement(name, kind, message, tc, ext).value)
    ensures res.Err? ==> res.error == Io
  {
    written := [StartElement(name, [Attribute("type", kind), Attribute("message", message)])];
    var body;
    body, res := WriteStripped(tc, ext);
    written := written + body;
    if res.Err? {
      return;
    }
    written := written + [EndElement];
  }

  /** A captured output as the writer sends it: start, CDATA, end, when there is a text. */
  method WriteCaptured(name: string, text: Option<string>) returns (written: seq<XmlEvent>)
    ensures written == EventsOf(CapturedOutput(name, text))
  {
    written := [];
    if text.Some? {
      written := [StartElement(name, []), CData(text.value), EndElement];
    }
    CapturedOutputEvents(name, text);
  }

  /** The stripped stdout then stderr of an error or failure case, as CDATA events. */
  method WriteStripped(tc: TestCase, ext: Externals) returns (written: seq<XmlEvent>, res: Result<(), ReportError>)
    ensures res.Ok? <==> StrippedOutput(tc.systemOut, ext).Ok? && StrippedOutput(tc.systemErr, ext).Ok?
    ensures res.Ok? ==>
      written == EventsOf(StrippedOutput(tc.systemOut, ext).value + StrippedOutput(tc.systemErr, ext).value)
    ensures res.Err? ==> res.error == Io
  {
    written := [];
    if tc.systemOut.Some? {
      var data := ext.stripAnsi(tc.systemOut.value);
      if data.None? {
        return written, Err(Io);
      }
      written := written + [CData(data.value)];
    }
    if tc.systemErr.Some? {
      var data := ext.stripAnsi(tc.systemErr.value);
      if data.None? {
        return written, Err(Io);
      }
      written := written + [CData(data.value)];
    }
    StrippedOutputEvents(tc.systemOut, ext);
    StrippedOutputEvents(tc.systemErr, ext);
    EventsOfAppend(StrippedOutput(tc.systemOut, ext).value, StrippedOutput(tc.systemErr, ext).value);
    res := Ok(());
  }

  /** Builds a report in place and hands out copies of it. */
  class ReportBuilder {
    var report: Report

    constructor ()
      ensures fresh(report) && report.testsuites == []
    {
      report := new Report();
    }

    method AddTestsuite(testsuite: TestSuite)
      modifies report
      ensures report.testsuites == old(report.testsuites) + [testsuite]
    {
      report.AddTestsuite(testsuite);
    }

    method AddTestsuites(suites: seq<TestSuite>)
      modifies report
      ensures report.testsuites == old(report.testsuites) + suites
    {
      report.AddTestsuites(suites);
    }

    /** A new report holding copies of the suites, which is written exactly like the report
        built so far. */
    method Build() returns (r: Report)
      ensures fresh(r) && |r.testsuites| == |report.testsuites|
      ensures forall i | 0 <= i < |r.testsuites| :: fresh(r.testsuites[i]) && r.testsuites[i].SameAs(report.testsuites[i])
    {
      r := new Report();
      for i := 0 to |report.testsuites|
        invariant fresh(r) && |r.testsuites| == i
        invariant forall k | 0 <= k < i :: fresh(r.testsuites[k]) && r.testsuites[k].SameAs(report.testsuites[k])
      {
        var copy := report.testsuites[i].Clone();
        r.AddTestsuite(copy);
      }
    }
  }
}
