// The end-to-end test runner: command-line arguments, the environment that
// stripes the tests across machines, which manifest entries run, which are
// skipped by pattern, and the exit code.  Spawning browsers, HTTP requests and
// file writes are outside the model.

module TestRunner {
  import opened Basics

  /** A JavaScript number as the test runner produces it from text: an integer or NaN. */
  datatype Number = NaN | Finite(n: int)

  /**
   * Unary `+` on an argument: `undefined` is NaN, "" is 0, an optionally
   * signed string of decimal digits is its value, anything else is NaN.
   */
  function ToNumber(s: Option<string>): (r: Number)
    ensures s.None? ==> r.NaN?
    ensures s.Some? && AllDigits(s.value) && s.value != "" ==> r == Finite(ParseDigits(s.value))
  {
    if s.None? then NaN
    else
      var t := s.value;
      if t == "" then Finite(0)
      else if AllDigits(t) then Finite(ParseDigits(t))
      else if |t| > 1 && (t[0] == '-' || t[0] == '+') && AllDigits(t[1..]) then
        var v: int := ParseDigits(t[1..]);
        Finite(if t[0] == '-' then -v else v)
      else NaN
  }

  /** Reading back a rendered integer gives the integer. */
  lemma ToNumberOfIntToString(n: int)
    ensures ToNumber(Some(IntToString(n))) == Finite(n)
  {
    if n < 0 {
      var t := IntToString(n);
      assert t[1..] == NatToString(-n);
      assert !AllDigits(t) by {
        assert !IsDigit(t[0]);
      }
    }
  }

  /** The test runner's module-level settings. */
  datatype Settings = Settings(
    count: Number,
    patterns: seq<string>,
    shouldRecordExamples: bool,
    shouldRecordViewer: bool,
    stripeIndex: Option<nat>,
    stripeCount: Option<nat>,
    /** The misspelled global assigned when striping (never read). */
    shouldRecordExample: bool,
    dispatchServer: Option<string>)

  const InitialSettings := Settings(Finite(1), [], false, false, None, None, false, None)

  /** The outcome of argument processing: all arguments handled, or usage printed and exit code 0. */
  datatype ArgsOutcome = Done(settings: Settings) | Usage(settings: Settings)

  /** The argument after position 0, or `undefined`. */
  function Next(args: seq<string>): Option<string>
  {
    if |args| > 1 then Some(args[1]) else None
  }

  /** The arguments after an option and its value. */
  function AfterValue(args: seq<string>): seq<string>
  {
    if |args| >= 2 then args[2..] else []
  }

  predicate TakesValue(arg: string)
  {
    arg == "--count" || arg == "--pattern"
  }

  predicate Known(arg: string)
  {
    TakesValue(arg) || arg == "--record-examples" || arg == "--record-viewer" || arg == "--record-all"
  }

  /** The arguments left after a known option (and its value, for --count and --pattern). */
  function Rest(args: seq<string>): (r: seq<string>)
    requires args != []
    ensures |r| < |args|
  {
    if TakesValue(args[0]) then AfterValue(args) else args[1..]
  }

  /**
   * The settings after the known option `args[0]`.  A missing pattern is
   * `undefined`, which `includes` later reads as the text "undefined".
   */
  function Apply(args: seq<string>, s: Settings): Settings
    requires args != [] && Known(args[0])
  {
    var arg := args[0];
    if arg == "--count" then s.(count := ToNumber(Next(args)))
    else if arg == "--pattern" then s.(patterns := s.patterns + [if |args| > 1 then args[1] else "undefined"])
    else if arg == "--record-examples" then s.(shouldRecordExamples := true)
    else if arg == "--record-viewer" then s.(shouldRecordViewer := true)
    else s.(shouldRecordViewer := true, shouldRecordExamples := true)
  }

  /** `processArgs` on the arguments after the program and script names. */
  function Parse(args: seq<string>, s: Settings): ArgsOutcome
    decreases |args|
  {
    if args == [] then Done(s)
    else if !Known(args[0]) then Usage(s)
    else Parse(Rest(args), Apply(args, s))
  }

  /** The arguments read as options (values of --count and --pattern are skipped). */
  function Options(args: seq<string>): (r: seq<string>)
    decreases |args|
  {
    if args == [] then [] else [args[0]] + Options(Rest(args))
  }

  /** Usage is printed exactly when some option is not one of the five known ones. */
  lemma {:induction false} ParseUsage(args: seq<string>, s: Settings)
    ensures Parse(args, s).Usage? <==> exists i :: 0 <= i < |Options(args)| && !Known(Options(args)[i])
    decreases |args|
  {
    if args != [] {
      var rest := Rest(args);
      assert Options(args) == [args[0]] + Options(rest);
      if Known(args[0]) {
        ParseUsage(rest, Apply(args, s));
        var o, r := Options(args), Options(rest);
        if exists i :: 0 <= i < |o| && !Known(o[i]) {
          var i :| 0 <= i < |o| && !Known(o[i]);
          assert o[i] == r[i - 1];
        }
        if exists i :: 0 <= i < |r| && !Known(r[i]) {
          var i :| 0 <= i < |r| && !Known(r[i]);
          assert o[i + 1] == r[i];
        }
      } else {
        assert Options(args)[0] == args[0];
      }
    }
  }

  /**
   * Without usage, the viewer is recorded exactly when it already was or
   * "--record-viewer" or "--record-all" is among the options, and examples
   * exactly when they already were or "--record-examples" or "--record-all"
   * is.
   */
  lemma {:induction false} ParseFlags(args: seq<string>, s: Settings)
    requires Parse(args, s).Done?
    ensures Parse(args, s).settings.shouldRecordViewer <==>
      s.shouldRecordViewer || "--record-viewer" in Options(args) || "--record-all" in Options(args)
    ensures Parse(args, s).settings.shouldRecordExamples <==>
      s.shouldRecordExamples || "--record-examples" in Options(args) || "--record-all" in Options(args)
    decreases |args|
  {
    if args != [] {
      assert Options(args) == [args[0]] + Options(Rest(args));
      ParseFlags(Rest(args), Apply(args, s));
    }
  }

  /** Without usage, every "--pattern" option adds one pattern and nothing else removes or adds any. */
  lemma {:induction false} ParsePatterns(args: seq<string>, s: Settings)
    requires Parse(args, s).Done?
    ensures |Parse(args, s).settings.patterns| == |s.patterns| + Occurrences(Options(args), "--pattern")
    ensures Parse(args, s).settings.patterns[..|s.patterns|] == s.patterns
    decreases |args|
  {
    if args != [] {
      assert Options(args) == [args[0]] + Options(Rest(args));
      var s' := Apply(args, s);
      ParsePatterns(Rest(args), s');
      var p := Parse(args, s).settings.patterns;
      assert p[..|s.patterns|] == p[..|s'.patterns|][..|s.patterns|];
    }
  }

  function Occurrences(xs: seq<string>, x: string): nat
  {
    if xs == [] then 0 else (if xs[0] == x then 1 else 0) + Occurrences(xs[1..], x)
  }

  /** The length of the run of decimal digits starting at `i`. */
  function DigitRun(s: string, i: nat): (n: nat)
    requires i <= |s|
    ensures i + n <= |s| && AllDigits(s[i..i + n])
    ensures i + n == |s| || !IsDigit(s[i + n])
    decreases |s| - i
  {
    if i < |s| && IsDigit(s[i]) then
      var n := DigitRun(s, i + 1);
      assert s[i..i + 1 + n] == [s[i]] + s[i + 1..i + 1 + n];
      1 + n
    else 0
  }

  /**
   * `/(\d+)\/(\d+)/` matches at `p`.  A match at `p` takes the longest run of
   * digits from `p`, since after a shorter run comes a digit and not "/", and
   * the greedy second group takes the longest run after the "/".
   */
  predicate MatchesAt(s: string, p: nat)
    requires p <= |s|
  {
    var n := DigitRun(s, p);
    n > 0 && p + n < |s| && s[p + n] == '/' && DigitRun(s, p + n + 1) > 0
  }

  /** The two captured numbers of the match at `p`. */
  function Groups(s: string, p: nat): (nat, nat)
    requires p <= |s| && MatchesAt(s, p)
  {
    var n := DigitRun(s, p);
    var m := DigitRun(s, p + n + 1);
    (ParseDigits(s[p..p + n]), ParseDigits(s[p + n + 1..p + n + 1 + m]))
  }

  /** The match at `q` is the leftmost one from `p` on. */
  predicate LeftmostFrom(s: string, p: nat, q: nat)
  {
    p <= q < |s| && MatchesAt(s, q) && forall k :: p <= k < q ==> !MatchesAt(s, k)
  }

  /** `exec` from position `p`: the numbers of the leftmost match, or null. */
  function Exec(s: string, p: nat): (r: Option<(nat, nat)>)
    requires p <= |s|
    ensures r.None? <==> forall q :: p <= q < |s| ==> !MatchesAt(s, q)
    ensures r.Some? ==> exists q :: LeftmostFrom(s, p, q) && r.value == Groups(s, q)
    decreases |s| - p
  {
    if p == |s| then None
    else if MatchesAt(s, p) then
      assert LeftmostFrom(s, p, p);
      Some(Groups(s, p))
    else
      var r := Exec(s, p + 1);
      if r.Some? then
        var q :| LeftmostFrom(s, p + 1, q) && r.value == Groups(s, q);
        assert LeftmostFrom(s, p, q);
        r
      else r
  }

  /** The stripe "index/count" in the INPUT_STRIPE value. */
  function StripeOf(s: string): Option<(nat, nat)>
  {
    Exec(s, 0)
  }

  lemma DigitRunOfDigits(s: string, i: nat, n: nat)
    requires i + n <= |s| && AllDigits(s[i..i + n])
    requires i + n == |s| || !IsDigit(s[i + n])
    ensures DigitRun(s, i) == n
    decreases n
  {
    if n > 0 {
      assert s[i] == s[i..i + n][0];
      assert s[i + 1..i + n] == s[i..i + n][1..];
      DigitRunOfDigits(s, i + 1, n - 1);
    }
  }

  /** The pieces of "a/b". */
  lemma SlashSlices(a: string, b: string)
    ensures var s := a + "/" + b;
      |s| == |a| + 1 + |b| && s[..|a|] == a && s[|a|] == '/' && s[|a| + 1..] == b
  {
  }

  /** Runs of digits of lengths `n` and `m` around a "/" match at the start. */
  lemma MatchOfRuns(s: string, n: nat, m: nat)
    requires n > 0 && m > 0 && |s| == n + 1 + m
    requires AllDigits(s[..n]) && s[n] == '/' && AllDigits(s[n + 1..])
    ensures MatchesAt(s, 0) && Groups(s, 0) == (ParseDigits(s[..n]), ParseDigits(s[n + 1..]))
  {
    assert s[0..n] == s[..n];
    assert s[n + 1..n + 1 + m] == s[n + 1..];
    DigitRunOfDigits(s, 0, n);
    DigitRunOfDigits(s, n + 1, m);
  }

  /** Two runs of digits around a "/" match at the start, and the groups are their values. */
  lemma MatchOfDigits(s: string, a: string, b: string)
    requires s == a + "/" + b && a != "" && b != "" && AllDigits(a) && AllDigits(b)
    ensures MatchesAt(s, 0) && Groups(s, 0) == (ParseDigits(a), ParseDigits(b))
  {
    SlashSlices(a, b);
    MatchOfRuns(s, |a|, |b|);
  }

  /** The stripe written as "index/count" reads back as that index and count. */
  lemma StripeRoundTrip(index: nat, count: nat)
    ensures StripeOf(NatToString(index) + "/" + NatToString(count)) == Some((index, count))
  {
    var s := NatToString(index) + "/" + NatToString(count);
    MatchOfDigits(s, NatToString(index), NatToString(count));
  }

  /**
   * The settings after INPUT_STRIPE as written: index and count, viewer
   * recording and the misspelled example flag; no match throws on `match[1]`.
   */
  function ApplyStripe(s: Settings, stripe: string): (r: Result<Settings>)
    ensures r.Ok? <==> StripeOf(stripe).Some?
    ensures r.Ok? ==> r.value.shouldRecordExamples == s.shouldRecordExamples && r.value.shouldRecordViewer
    ensures r.Ok? ==> r.value.shouldRecordExample
    ensures r.Ok? ==> r.value.stripeIndex == Some(StripeOf(stripe).value.0) && r.value.stripeCount == Some(StripeOf(stripe).value.1)
    ensures r.Ok? ==> r.value.count == s.count && r.value.patterns == s.patterns && r.value.dispatchServer == s.dispatchServer
  {
    match StripeOf(stripe)
    case None => Throws("TypeError")
    case Some((index, count)) =>
      Ok(s.(stripeIndex := Some(index), stripeCount := Some(count), shouldRecordViewer := true, shouldRecordExample := true))
  }

  /** The settings after INPUT_STRIPE as intended: examples are recorded too. */
  function ApplyStripeIntended(s: Settings, stripe: string): (r: Result<Settings>)
    ensures r.Ok? <==> StripeOf(stripe).Some?
    ensures r.Ok? ==> r.value.shouldRecordExamples && r.value.shouldRecordViewer
    ensures r.Ok? ==> r.value.stripeIndex == Some(StripeOf(stripe).value.0) && r.value.stripeCount == Some(StripeOf(stripe).value.1)
    ensures r.Ok? ==> r.value.count == s.count && r.value.patterns == s.patterns && r.value.dispatchServer == s.dispatchServer
    ensures r.Ok? ==> r.value.shouldRecordExample == s.shouldRecordExample
  {
    match StripeOf(stripe)
    case None => Throws("TypeError")
    case Some((index, count)) =>
      Ok(s.(stripeIndex := Some(index), stripeCount := Some(count), shouldRecordViewer := true, shouldRecordExamples := true))
  }

  const DefaultDispatchServer := "wss://dispatch.replay.io"

  /** RECORD_REPLAY_SERVER when set and non-empty, otherwise the default dispatch server. */
  function ServerOf(server: Option<string>): string
  {
    if server.Some? && server.value != "" then server.value else DefaultDispatchServer
  }

  /** `processEnvironmentVariables` on INPUT_STRIPE and RECORD_REPLAY_SERVER. */
  function ProcessEnvironment(s: Settings, stripe: Option<string>, server: Option<string>, intended: bool): (r: Result<Settings>)
    ensures (stripe.None? || stripe.value == "") ==> r == Ok(s.(dispatchServer := Some(ServerOf(server))))
    ensures r.Ok? ==> r.value.dispatchServer == Some(ServerOf(server))
    ensures r.Ok? ==> r.value.count == s.count && r.value.patterns == s.patterns
    ensures stripe.Some? && stripe.value != "" ==> (r.Ok? <==> StripeOf(stripe.value).Some?)
    ensures stripe.Some? && stripe.value != "" && r.Ok? ==>
      r.value.stripeIndex == Some(StripeOf(stripe.value).value.0) &&
      r.value.stripeCount == Some(StripeOf(stripe.value).value.1) && r.value.shouldRecordViewer &&
      (intended ==> r.value.shouldRecordExamples && r.value.shouldRecordExample == s.shouldRecordExample) &&
      (!intended ==> r.value.shouldRecordExamples == s.shouldRecordExamples && r.value.shouldRecordExample)
  {
    var striped :=
      if stripe.Some? && stripe.value != "" then
        (if intended then ApplyStripeIntended(s, stripe.value) else ApplyStripe(s, stripe.value))
      else Ok(s);
    match striped
    case Throws(e) => Throws(e)
    case Ok(t) => Ok(t.(dispatchServer := Some(ServerOf(server))))
  }

  /** Test `i` of the manifest runs on this machine: no stripe count, or `i` falls in this stripe. */
  predicate RunsHere(i: nat, s: Settings)
  {
    s.stripeCount.None? || s.stripeCount.value == 0 ||
    (s.stripeIndex.Some? && i % s.stripeCount.value == s.stripeIndex.value)
  }

  /** With `count` stripes, every test runs on exactly one machine: the one whose index is `i % count`. */
  lemma StripesPartition(i: nat, s: Settings, count: nat, index: nat)
    requires count > 0 && s.stripeCount == Some(count) && s.stripeIndex == Some(index)
    ensures RunsHere(i, s) <==> index == i % count
    ensures index >= count ==> !RunsHere(i, s)
  {
  }

  /** The environment `runMatchingTests` gives one test. */
  datatype TestEnv = TestEnv(recordExample: bool, dontRecordViewer: bool, testURL: string)

  /**
   * An example is recorded when asked or when it has no saved recording; the
   * test then loads the example page, and otherwise the saved recording.
   */
  function TestEnvOf(s: Settings, test: string, example: string, savedRecording: Option<string>): (r: TestEnv)
    ensures r.recordExample <==> s.shouldRecordExamples || savedRecording.None? || savedRecording.value == ""
    ensures r.dontRecordViewer <==> !s.shouldRecordViewer
    ensures r.recordExample ==> r.testURL == "http://localhost:8080/test/examples/" + example
    ensures !r.recordExample ==> r.testURL == "http://localhost:8080/view?id=" + savedRecording.value + "&test=" + test
  {
    var record := s.shouldRecordExamples || savedRecording.None? || savedRecording.value == "";
    TestEnv(record, !s.shouldRecordViewer,
      if record then "http://localhost:8080/test/examples/" + example
      else "http://localhost:8080/view?id=" + savedRecording.value + "&test=" + test)
  }

  /**
   * On a striped machine, as written, an example with a saved recording is
   * replayed from it rather than recorded again; as intended it is recorded.
   */
  lemma StripedExampleNotRerecorded(test: string, example: string, recordingId: string)
    requires recordingId != ""
    ensures var s := ApplyStripe(InitialSettings, "0/2");
      s.Ok? && !TestEnvOf(s.value, test, example, Some(recordingId)).recordExample
    ensures var s := ApplyStripeIntended(InitialSettings, "0/2");
      s.Ok? && TestEnvOf(s.value, test, example, Some(recordingId)).recordExample
  {
    StripeRoundTrip(0, 2);
    assert NatToString(0) + "/" + NatToString(2) == "0/2";
  }

  /**
   * `runTest`'s skip rule: some pattern was given and none of them occurs in
   * the test runner path, the test URL or the local test name.
   */
  predicate Skips(patterns: seq<string>, path: string, testURL: string, local: string)
  {
    |patterns| > 0 &&
    forall i :: 0 <= i < |patterns| ==>
      !Includes(path, patterns[i]) && !Includes(testURL, patterns[i]) && !Includes(local, patterns[i])
  }

  /** A test skipped under more patterns is skipped under fewer (as long as some remain). */
  lemma SkipsFewerPatterns(patterns: seq<string>, more: seq<string>, path: string, testURL: string, local: string)
    requires Skips(patterns + more, path, testURL, local) && |patterns| > 0
    ensures Skips(patterns, path, testURL, local)
  {
    forall i | 0 <= i < |patterns|
      ensures !Includes(path, patterns[i]) && !Includes(testURL, patterns[i]) && !Includes(local, patterns[i])
    {
      assert (patterns + more)[i] == patterns[i];
    }
  }

  /** A test whose name contains one of the patterns always runs. */
  lemma NameMatchRuns(patterns: seq<string>, i: nat, path: string, testURL: string, local: string)
    requires i < |patterns| && Includes(local, patterns[i])
    ensures !Skips(patterns, path, testURL, local)
  {
  }

  /** Every string contains the empty pattern, so an empty pattern runs every test. */
  lemma EmptyPatternRunsAll(path: string, testURL: string, local: string)
    ensures !Skips([""], path, testURL, local)
  {
    assert IsPrefix("", local[0..]);
    assert [""][0] == "" && Includes(local, "");
  }

  /** The process's exit code: 1 after any failure, 0 otherwise. */
  function ExitCode(failures: seq<string>): (code: int)
    ensures code == 0 || code == 1
    ensures code == 1 <==> |failures| > 0
  {
    if |failures| > 0 then 1 else 0
  }

  /** How many times the manifest is run for a `count`: NaN or a non-positive count runs it never. */
  function Passes(count: Number): (n: nat)
    ensures count.Finite? && count.n > 0 ==> n == count.n
    ensures count.NaN? || count.n <= 0 ==> n == 0
  {
    if count.Finite? && count.n > 0 then count.n else 0
  }

  /**
   * The test runner's module-level variables.  `intended` chooses the evidently
   * intended INPUT_STRIPE handling (the flag the test loop reads) over the
   * code as written.
   */
  class Runner {
    const intended: bool
    var count: Number
    var patterns: seq<string>
    var shouldRecordExamples: bool
    var shouldRecordViewer: bool
    var stripeIndex: Option<nat>
    var stripeCount: Option<nat>
    var shouldRecordExample: bool
    var dispatchServer: Option<string>

    function Current(): Settings
      reads this
    {
      Settings(count, patterns, shouldRecordExamples, shouldRecordViewer, stripeIndex, stripeCount,
        shouldRecordExample, dispatchServer)
    }

    method Assign(s: Settings)
      modifies this
      ensures Current() == s
    {
      count, patterns, shouldRecordExamples, shouldRecordViewer := s.count, s.patterns, s.shouldRecordExamples, s.shouldRecordViewer;
      stripeIndex, stripeCount, shouldRecordExample, dispatchServer := s.stripeIndex, s.stripeCount, s.shouldRecordExample, s.dispatchServer;
    }

    constructor (intended: bool)
      ensures this.intended == intended
      ensures Current() == InitialSettings
    {
      this.intended := intended;
      count := Finite(1);
      patterns := [];
      shouldRecordExamples := false;
      shouldRecordViewer := false;
      stripeIndex := None;
      stripeCount := None;
      shouldRecordExample := false;
      dispatchServer := None;
    }

    /** One known option of `processArgs`: its value, if it takes one, is the next argument. */
    method ApplyOption(args: seq<string>)
      requires args != [] && Known(args[0])
      modifies this
      ensures Current() == Apply(args, old(Current()))
    {
      var arg := args[0];
      if arg == "--count" {
        count := ToNumber(if |args| > 1 then Some(args[1]) else None);
      } else if arg == "--pattern" {
        patterns := patterns + [if |args| > 1 then args[1] else "undefined"];
      } else if arg == "--record-examples" {
        shouldRecordExamples := true;
      } else if arg == "--record-viewer" {
        shouldRecordViewer := true;
      } else {
        shouldRecordViewer := true;
        shouldRecordExamples := true;
      }
    }

    /**
     * `processArgs` on the full argument vector (program and script names
     * first).  It stops at the first unknown argument, after printing usage,
     * to exit with code 0.
     */
    method ProcessArgs(argv: seq<string>) returns (exited: bool)
      requires |argv| >= 2
      modifies this
      ensures exited <==> Parse(argv[2..], old(Current())).Usage?
      ensures Current() == Parse(argv[2..], old(Current())).settings
    {
      var i := 2;
      while i < |argv|
        invariant 2 <= i <= |argv| + 1
        invariant Parse(if i <= |argv| then argv[i..] else [], Current()) == Parse(argv[2..], old(Current()))
        decreases |argv| - i
      {
        var args := argv[i..];
        if !Known(args[0]) {
          return true;
        }
        ApplyOption(args);
        i := i + if TakesValue(args[0]) then 2 else 1;
        assert (if i <= |argv| then argv[i..] else []) == Rest(args);
      }
      return false;
    }

    /** `processEnvironmentVariables`; when INPUT_STRIPE has no stripe it throws and nothing changes. */
    method ProcessEnvironmentVariables(stripe: Option<string>, server: Option<string>) returns (thrown: bool)
      modifies this
      ensures thrown <==> ProcessEnvironment(old(Current()), stripe, server, intended).Throws?
      ensures thrown ==> Current() == old(Current())
      ensures !thrown ==> Current() == ProcessEnvironment(old(Current()), stripe, server, intended).value
    {
      if stripe.Some? && stripe.value != "" {
        var m := StripeOf(stripe.value);
        if m.None? {
          return true;
        }
        stripeIndex := Some(m.value.0);
        stripeCount := Some(m.value.1);
        shouldRecordViewer := true;
        if intended {
          shouldRecordExamples := true;
        } else {
          shouldRecordExample := true;
        }
      }
      dispatchServer := Some(ServerOf(server));
      return false;
    }

    /** The manifest indices `runMatchingTests` runs on this machine, in order. */
    method MatchingTests(manifestLength: nat) returns (run: seq<nat>)
      ensures forall i: nat :: i in run <==> i < manifestLength && RunsHere(i, Current())
      ensures forall j, k :: 0 <= j < k < |run| ==> run[j] < run[k]
    {
      run := [];
      for i := 0 to manifestLength
        invariant forall t: nat :: t in run <==> t < i && RunsHere(t, Current())
        invariant forall j, k :: 0 <= j < k < |run| ==> run[j] < run[k]
        invariant forall j :: 0 <= j < |run| ==> run[j] < i
      {
        if !RunsHere(i, Current()) {
          continue;
        }
        run := run + [i];
      }
    }
  }
}
