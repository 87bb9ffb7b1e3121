/**
 * The configuration stage (`config_verification`): one JSNAPy test file per service, the list
 * of test files in the JSNAPy configuration, and the verdict over JSNAPy's check results.
 */
module ConfigCheck {
  import opened Wrappers
  import opened Decimal
  import opened Naming
  import opened Inventory
  import opened Text

  const TestHead := "\n---\ntest_app_"
  const XpathOpen := ":\n" + "- rpc: get-config\n- item:\n    id: ./name\n    xpath: 'applications/application[name=\""
  const XpathClose := "\"]'\n    tests:\n    - is-equal: destination-port, "
  const TestTrailer := "\n      info: \"Test Succeeded!!, destination-port is <{{post['destination-port']}}>\"\n      err: \"Test Failed!!!, destination-port is <{{post['destination-port']}}>\"\n        "

  /** What the configuration-assertion engine reports for a check that holds. */
  const Passed := "Passed"

  /**
   * `get_test_text(name, port)`: a test `test_app_<name>` that fetches the configuration, selects
   * the application object of the service and requires its `destination-port` to equal `port`.
   */
  function TestText(name: string, port: int): string
  {
    TestHead + name + XpathOpen + AppObjectName(name) + XpathClose + FromInt(port) + TestTrailer
  }

  /**
   * Reads a test text back: the service name from the test id (the text up to the first line
   * break), then the port from the `is-equal` line, provided the rest of the text is exactly what
   * `TestText` writes for that name.
   */
  function ParseTestText(text: string): Option<(string, int)>
  {
    ParseTemplate(text, TestHead, XpathOpen, XpathClose, TestTrailer)
  }

  /**
   * The parse of `ParseTestText` over the fixed pieces of the template: `head`, then the name up
   * to the line break that follows it, then `open`, the application object of that name,
   * `close`, a rendered integer and `trailer`.
   */
  function ParseTemplate(text: string, head: string, open: string, close: string, trailer: string)
    : Option<(string, int)>
  {
    if |text| < |head| || text[..|head|] != head then None
    else
      match SplitId(text[|head|..])
      case None => None
      case Some((name, rest)) =>
        match ParseExpected(rest, open + AppObjectName(name) + close, trailer)
        case None => None
        case Some(port) => Some((name, port))
  }

  /** Splits off the name that ends one character (the colon) before the first line break. */
  function SplitId(body: string): Option<(string, string)>
  {
    match FirstIndex(body, '\n')
    case None => None
    case Some(e) => if e == 0 then None else Some((body[..e - 1], body[e - 1..]))
  }

  /** Reads the integer that `rest` holds between `mid` and `trailer`. */
  function ParseExpected(rest: string, mid: string, trailer: string): Option<int>
  {
    if |rest| < |mid| + |trailer| || rest[..|mid|] != mid || rest[|rest| - |trailer|..] != trailer then None
    else ParseInt(rest[|mid|..|rest| - |trailer|])
  }

  lemma SplitIdOf(name: string, rest: string)
    requires '\n' !in name && |rest| >= 2 && rest[0] == ':' && rest[1] == '\n'
    ensures SplitId(name + rest) == Some((name, rest))
  {
    var body := name + rest;
    assert body[..|name| + 1] == name + [':'];
    FirstIndexAt(body, '\n', |name| + 1);
    assert body[..|name|] == name && body[|name|..] == rest;
  }

  lemma SplitIdExact(body: string, name: string, rest: string)
    requires SplitId(body) == Some((name, rest))
    ensures body == name + rest && '\n' !in name
  {
    var e := FirstIndex(body, '\n').value;
    assert name == body[..e][..e - 1];
  }

  lemma ParseExpectedOf(mid: string, port: int, trailer: string)
    ensures ParseExpected(mid + FromInt(port) + trailer, mid, trailer) == Some(port)
  {
    var rest := mid + FromInt(port) + trailer;
    assert rest[..|mid|] == mid && rest[|rest| - |trailer|..] == trailer;
    assert rest[|mid|..|rest| - |trailer|] == FromInt(port);
    ParseFromInt(port);
  }

  lemma ParseExpectedExact(rest: string, mid: string, trailer: string, port: int)
    requires ParseExpected(rest, mid, trailer) == Some(port)
    ensures rest == mid + FromInt(port) + trailer
  {
    var digits := rest[|mid|..|rest| - |trailer|];
    FromIntParse(digits, port);
    assert rest == mid + digits + trailer;
  }

  lemma TemplateRoundTrip(name: string, port: int, head: string, open: string, close: string, trailer: string)
    requires '\n' !in name && |open| >= 2 && open[0] == ':' && open[1] == '\n'
    ensures ParseTemplate(head + name + open + AppObjectName(name) + close + FromInt(port) + trailer,
                          head, open, close, trailer) == Some((name, port))
  {
    var mid := open + AppObjectName(name) + close;
    var rest := mid + FromInt(port) + trailer;
    var text := head + name + open + AppObjectName(name) + close + FromInt(port) + trailer;
    assert text == head + (name + rest);
    assert text[..|head|] == head && text[|head|..] == name + rest;
    SplitIdOf(name, rest);
    ParseExpectedOf(mid, port, trailer);
  }

  /**
   * The test text names the service in its id and its xpath and carries the port as the
   * expected destination port: parsing recovers both. Service names never hold a line break.
   */
  lemma ParseTestTextRoundTrip(name: string, port: int)
    requires '\n' !in name
    ensures ParseTestText(TestText(name, port)) == Some((name, port))
  {
    TemplateRoundTrip(name, port, TestHead, XpathOpen, XpathClose, TestTrailer);
  }

  /** The steps a successful template parse went through. */
  lemma TemplateSteps(text: string, head: string, open: string, close: string, trailer: string,
                      name: string, port: int) returns (rest: string)
    requires ParseTemplate(text, head, open, close, trailer) == Some((name, port))
    ensures |text| >= |head| && text[..|head|] == head
    ensures SplitId(text[|head|..]) == Some((name, rest))
    ensures ParseExpected(rest, open + AppObjectName(name) + close, trailer) == Some(port)
  {
    rest := SplitId(text[|head|..]).value.1;
  }

  lemma TemplateExact(text: string, head: string, open: string, close: string, trailer: string,
                      name: string, port: int)
    requires ParseTemplate(text, head, open, close, trailer) == Some((name, port))
    ensures '\n' !in name
    ensures text == head + name + open + AppObjectName(name) + close + FromInt(port) + trailer
  {
    var rest := TemplateSteps(text, head, open, close, trailer, name, port);
    var body := text[|head|..];
    var mid := open + AppObjectName(name) + close;
    SplitIdExact(body, name, rest);
    ParseExpectedExact(rest, mid, trailer, port);
    assert text == head + body;
    Regroup(head, name, open, AppObjectName(name), close, FromInt(port), trailer);
  }

  /** The template's pieces regrouped as the parse splits them; stated apart to keep `TemplateExact` cheap. */
  lemma Regroup(head: string, name: string, open: string, app: string, close: string,
                digits: string, trailer: string)
    ensures head + name + open + app + close + digits + trailer ==
            head + (name + ((open + app + close) + digits + trailer))
  {
  }

  /** Only texts that `TestText` writes parse, so a parsed text determines the test exactly. */
  lemma ParseTestTextExact(text: string, name: string, port: int)
    requires ParseTestText(text) == Some((name, port))
    ensures '\n' !in name
    ensures text == TestText(name, port)
  {
    TemplateExact(text, TestHead, XpathOpen, XpathClose, TestTrailer, name, port);
  }

  const TestDir := "scripts/jsnapytest_"

  /** The file that holds a service's test, as the JSNAPy configuration lists it. */
  function TestFileName(name: string): (f: string)
    ensures |f| == |name| + 24
    ensures f[..19] == TestDir && f[19..|f| - 5] == name && f[|f| - 5..] == ".yaml"
  {
    TestDir + name + ".yaml"
  }

  lemma TestFileNameInjective(a: string, b: string)
    ensures TestFileName(a) == TestFileName(b) ==> a == b
  {
    if TestFileName(a) == TestFileName(b) {
      assert a == TestFileName(a)[19..|a| + 19];
    }
  }

  /** The file name of each service's test, in input order. */
  function TestFiles(services: seq<Service>): (files: seq<string>)
    ensures |files| == |services|
  {
    seq(|services|, i requires 0 <= i < |services| => TestFileName(services[i].name))
  }

  /** The test text of each service, in input order. */
  function TestTexts(services: seq<Service>): (texts: seq<string>)
    ensures |texts| == |services|
  {
    seq(|services|, i requires 0 <= i < |services| => TestText(services[i].name, services[i].port))
  }

  /**
   * The files on disk after writing `vals[i]` to the file `keys[i]`, one after the other: a
   * later write to the same file replaces the earlier content.
   */
  function Writes(keys: seq<string>, vals: seq<string>): map<string, string>
    requires |keys| == |vals|
  {
    if keys == [] then map[]
    else Writes(keys[..|keys| - 1], vals[..|vals| - 1])[keys[|keys| - 1] := vals[|vals| - 1]]
  }

  /**
   * The loop of `config_verification`: it writes each service's test file (a file map stands for
   * the disk) and appends the file name to the list of tests, in input order, without sorting or
   * removing duplicates.
   */
  method GenerateTests(services: seq<Service>) returns (tests: seq<string>, files: map<string, string>)
    ensures tests == TestFiles(services)
    ensures files == Writes(tests, TestTexts(services))
  {
    tests := [];
    files := map[];
    for n := 0 to |services|
      invariant tests == TestFiles(services)[..n]
      invariant files == Writes(tests, TestTexts(services)[..n])
    {
      var service := services[n];
      var fileName := TestFileName(service.name);
      var text := TestText(service.name, service.port);
      PrefixNext(TestTexts(services), n);
      PrefixNext(TestFiles(services), n);
      assert (tests + [fileName])[..n] == tests;
      files := files[fileName := text];
      tests := tests + [fileName];
    }
    assert TestTexts(services)[..|services|] == TestTexts(services);
  }

  /** One more element of a prefix; stated apart to keep the loop of `GenerateTests` cheap. */
  lemma PrefixNext(s: seq<string>, n: nat)
    requires n < |s|
    ensures s[..n + 1] == s[..n] + [s[n]]
  {
  }

  /** The file map holds a file exactly when some write went to it. */
  lemma {:induction false} WritesNamed(keys: seq<string>, vals: seq<string>, f: string)
    requires |keys| == |vals|
    ensures f in Writes(keys, vals) <==> f in keys
  {
    if keys != [] {
      var n := |keys| - 1;
      WritesNamed(keys[..n], vals[..n], f);
      assert keys == keys[..n] + [keys[n]];
    }
  }

  /** No later key in the list equals key `i`. */
  predicate LastKey(keys: seq<string>, i: nat)
    requires i < |keys|
  {
    forall j :: i < j < |keys| ==> keys[j] != keys[i]
  }

  /** The last write to a file decides its content. */
  lemma {:induction false} WritesLatest(keys: seq<string>, vals: seq<string>, i: nat)
    requires |keys| == |vals| && i < |keys| && LastKey(keys, i)
    ensures keys[i] in Writes(keys, vals) && Writes(keys, vals)[keys[i]] == vals[i]
  {
    var n := |keys| - 1;
    if i < n {
      assert keys[..n][i] == keys[i] && vals[..n][i] == vals[i];
      forall j | i < j < n
        ensures keys[..n][j] != keys[..n][i]
      {
        assert keys[..n][j] == keys[j];
      }
      WritesLatest(keys[..n], vals[..n], i);
    }
  }

  /** No later service in the list has the same name as service `i`. */
  predicate LastOfName(services: seq<Service>, i: nat)
    requires i < |services|
  {
    forall j :: i < j < |services| ==> services[j].name != services[i].name
  }

  /** Service names and test file names correspond one to one. */
  lemma LastOfNameLastFile(services: seq<Service>, i: nat)
    requires i < |services| && LastOfName(services, i)
    ensures LastKey(TestFiles(services), i)
  {
    var files := TestFiles(services);
    forall j | i < j < |files|
      ensures files[j] != files[i]
    {
      TestFileNameInjective(services[j].name, services[i].name);
    }
  }

  /** The test list names every file written and nothing else. */
  lemma GeneratedFilesNamed(services: seq<Service>, f: string)
    ensures f in Writes(TestFiles(services), TestTexts(services)) <==> f in TestFiles(services)
  {
    WritesNamed(TestFiles(services), TestTexts(services), f);
  }

  /**
   * Services of the same name share a file, whose content is the test of the last of them.
   */
  lemma GeneratedFileLatest(services: seq<Service>, i: nat)
    requires i < |services| && LastOfName(services, i)
    ensures TestFileName(services[i].name) in Writes(TestFiles(services), TestTexts(services))
    ensures Writes(TestFiles(services), TestTexts(services))[TestFileName(services[i].name)] ==
            TestText(services[i].name, services[i].port)
  {
    LastOfNameLastFile(services, i);
    WritesLatest(TestFiles(services), TestTexts(services), i);
  }

  /** Every check reported "Passed". */
  predicate AllPassed(results: seq<string>)
  {
    forall i :: 0 <= i < |results| ==> results[i] == Passed
  }

  /**
   * The assertion loop over JSNAPy's results: it stops at the first result that is not
   * "Passed" and reports its position; an empty result list passes.
   */
  method CheckResults(results: seq<string>) returns (failedAt: Option<nat>)
    ensures failedAt.None? <==> AllPassed(results)
    ensures failedAt.Some? ==> failedAt.value < |results| && results[failedAt.value] != Passed &&
                               forall j :: 0 <= j < failedAt.value ==> results[j] == Passed
  {
    var i := 0;
    while i < |results|
      invariant i <= |results|
      invariant forall j :: 0 <= j < i ==> results[j] == Passed
    {
      if results[i] != Passed {
        return Some(i);
      }
      i := i + 1;
    }
    return None;
  }
}
