/**
 * The order and gating of the external steps of one workflow-mode run
 * (bin/main.js:80-155), with every process, network and file effect
 * replaced by an abstract outcome.
 */
module Workflow {
  import opened JsValues
  import Strings

  /**
   * The `discordNotifications` field of the configuration: absent or null,
   * some other non-object value, or an object with its two flags.
   */
  datatype Notifications =
    | Nullish
    | NotAnObject
    | Settings(onPublish: Json, onAttentionNeeded: Json)

  /** The configuration file `.github/.life-machine.json`, field by field as parsed. */
  datatype Config = Config(
    manualCheckOnMajor: Json,
    runTests: Json,
    manualOnly: Json,
    testCommand: Json,
    discordNotifications: Notifications,
    versionType: Json)

  /** What the major-version gate did: passed, found a Major update, or failed to read the registry. */
  datatype GateOutcome = Passed | Blocked | RegistryFailed

  /**
   * The outcomes of the effects the plan depends on: the test command's exit
   * status, the gate, `npm version`, `npm publish`, and whether a message to
   * the webhook can be delivered (a URL was given and the POST succeeds).
   */
  datatype Outcomes = Outcomes(
    testsPass: bool,
    gate: GateOutcome,
    bumpPass: bool,
    publishPass: bool,
    webhookOk: bool)

  /** The externally visible steps of a run. */
  datatype Step =
    | ManualOnlyNotice
    | RunTests(program: string, args: seq<string>)
    | MajorCheck
    | BumpVersion(versionType: Json)
    | WriteCredentials
    | Publish
    | RemoveCredentials
    | AttentionNotice
    | PublishedNotice

  /** The steps a run takes, in order, and the process exit code. */
  datatype Run = Run(steps: seq<Step>, exitCode: nat)

  /** `testCommand.split(' ')[0]` and `testCommand.split(' ').slice(1)` (bin/main.js:91). */
  function TestCommandParts(command: string): (string, seq<string>)
  {
    var pieces := Strings.Split(command, ' ');
    (pieces[0], pieces[1..])
  }

  /**
   * The program is the text before the first space; the arguments are the
   * remaining space-separated pieces, one more than the spaces after the
   * program, empty ones included; and putting program and arguments back
   * together with single spaces gives the command string.
   */
  lemma TestCommandSplit(command: string)
    ensures var (program, args) := TestCommandParts(command);
      && program == command[..Strings.IndexOf(command, ' ')]
      && ' ' !in program
      && (forall k :: 0 <= k < |args| ==> ' ' !in args[k])
      && |args| == Strings.Count(command, ' ')
      && Strings.Join([program] + args, ' ') == command
  {
    var pieces := Strings.Split(command, ' ');
    Strings.SplitHead(command, ' ');
    Strings.SplitPiecesFree(command, ' ');
    Strings.SplitCount(command, ' ');
    Strings.JoinSplit(command, ' ');
    assert [pieces[0]] + pieces[1..] == pieces;
  }

  /**
   * `config.versionType || 'patch'` (bin/main.js:134): a falsy value (absent,
   * null, false, 0 or the empty string) falls back to "patch"; any other
   * value is passed to `npm version` unchanged.
   */
  function BumpType(versionType: Json): (r: Json)
    ensures Truthy(r)
    ensures Truthy(versionType) ==> r == versionType
    ensures !Truthy(versionType) ==> r == Str("patch")
  {
    if Truthy(versionType) then versionType else Str("patch")
  }

  /** `throwError` forwards its message to the webhook only when `onAttentionNeeded` is exactly `true`. */
  predicate AttentionEnabled(c: Config)
  {
    c.discordNotifications.Settings? && c.discordNotifications.onAttentionNeeded == Bool(true)
  }

  /** Whether the test step runs: `config.runTests && typeof config.testCommand === 'string'`. */
  predicate TestsConfigured(c: Config)
  {
    Truthy(c.runTests) && c.testCommand.Str?
  }

  /** The test step, when configured. */
  function TestSteps(c: Config): seq<Step>
  {
    if TestsConfigured(c) then
      var parts := TestCommandParts(c.testCommand.s);
      [RunTests(parts.0, parts.1)]
    else []
  }

  /** A fatal error through `throwError`: the optional attention notice, then exit code 1. */
  function Fail(done: seq<Step>, c: Config, o: Outcomes): Run
  {
    Run(done + (if AttentionEnabled(c) && o.webhookOk then [AttentionNotice] else []), 1)
  }

  /**
   * After a successful publish (bin/main.js:152-154): reading `onPublish` of
   * an absent or null `discordNotifications` throws, and so does sending the
   * notice without a deliverable webhook; both end the process with code 1.
   */
  function Finish(done: seq<Step>, c: Config, o: Outcomes): Run
  {
    match c.discordNotifications
    case Nullish => Run(done, 1)
    case NotAnObject => Run(done, 0)
    case Settings(onPublish, _) =>
      if !Truthy(onPublish) then Run(done, 0)
      else if o.webhookOk then Run(done + [PublishedNotice], 0)
      else Run(done, 1)
  }

  /**
   * The workflow of bin/main.js:84-154: manualOnly stops the run; then the
   * tests, the major-version gate and the release, each stage running only
   * when the ones before it succeeded.
   */
  function Plan(c: Config, o: Outcomes): Run
  {
    if Truthy(c.manualOnly) then
      Run(if o.webhookOk then [ManualOnlyNotice] else [], 1)
    else
      var tests := TestSteps(c);
      if tests != [] && !o.testsPass then Fail(tests, c, o)
      else Gate(tests, c, o)
  }

  /**
   * The major-version gate (bin/main.js:94-132), when manualCheckOnMajor is
   * truthy: a registry lookup that throws ends the process without going
   * through `throwError`; a Major update goes through it.
   */
  function Gate(done: seq<Step>, c: Config, o: Outcomes): Run
  {
    if !Truthy(c.manualCheckOnMajor) then Release(done, c, o)
    else
      var checked := done + [MajorCheck];
      match o.gate
      case RegistryFailed => Run(checked, 1)
      case Blocked => Fail(checked, c, o)
      case Passed => Release(checked, c, o)
  }

  /**
   * `npm version` with `versionType || 'patch'`, writing `.npmrc`,
   * `npm publish` and removing `.npmrc` (bin/main.js:134-150), then the
   * success notice.
   */
  function Release(done: seq<Step>, c: Config, o: Outcomes): Run
  {
    var bumped := done + [BumpVersion(BumpType(c.versionType))];
    if !o.bumpPass then Fail(bumped, c, o)
    else
      var published := bumped + [WriteCredentials, Publish];
      if !o.publishPass then Fail(published, c, o)
      else Finish(published + [RemoveCredentials], c, o)
  }

  /** The position of each step in the workflow's fixed order. */
  function Rank(s: Step): nat
  {
    match s
    case ManualOnlyNotice => 0
    case RunTests(_, _) => 1
    case MajorCheck => 2
    case BumpVersion(_) => 3
    case WriteCredentials => 4
    case Publish => 5
    case RemoveCredentials => 6
    case AttentionNotice => 7
    case PublishedNotice => 7
  }

  /** Steps occur at most once each and in the workflow's order. */
  predicate InWorkflowOrder(steps: seq<Step>)
  {
    forall i, j :: 0 <= i < j < |steps| ==> Rank(steps[i]) < Rank(steps[j])
  }

  /** Each step ranks above the one before it. */
  predicate Ascending(steps: seq<Step>)
  {
    |steps| <= 1 || (Rank(steps[|steps| - 2]) < Rank(steps[|steps| - 1]) && Ascending(steps[..|steps| - 1]))
  }

  /** Appending a step that ranks above the last one keeps the steps ascending. */
  lemma Snoc(a: seq<Step>, s: Step)
    requires Ascending(a) && (a == [] || Rank(a[|a| - 1]) < Rank(s))
    ensures Ascending(a + [s])
  {
    assert (a + [s])[..|a|] == a;
  }

  /** Ascending steps are in the workflow's order. */
  lemma {:induction false} AscendingIsOrdered(steps: seq<Step>)
    requires Ascending(steps)
    ensures InWorkflowOrder(steps)
  {
    if |steps| > 1 {
      var init := steps[..|steps| - 1];
      AscendingIsOrdered(init);
      forall i, j | 0 <= i < j < |steps| ensures Rank(steps[i]) < Rank(steps[j]) {
        if j < |steps| - 1 {
          assert steps[i] == init[i] && steps[j] == init[j];
        } else if i < |steps| - 2 {
          assert steps[i] == init[i] && steps[|steps| - 2] == init[|steps| - 2];
        }
      }
    }
  }

  /** The last step of a run so far ranks below `k`. */
  predicate EndsBelow(steps: seq<Step>, k: nat)
  {
    steps == [] || Rank(steps[|steps| - 1]) < k
  }

  /** A failure notice ranks above everything else a run did. */
  lemma FailIsAscending(done: seq<Step>, c: Config, o: Outcomes)
    requires Ascending(done) && EndsBelow(done, Rank(AttentionNotice))
    ensures Ascending(Fail(done, c, o).steps)
  {
    if AttentionEnabled(c) && o.webhookOk {
      Snoc(done, AttentionNotice);
    } else {
      assert Fail(done, c, o).steps == done;
    }
  }

  lemma ReleaseIsAscending(done: seq<Step>, c: Config, o: Outcomes)
    requires Ascending(done) && EndsBelow(done, Rank(BumpVersion(c.versionType)))
    ensures Ascending(Release(done, c, o).steps)
  {
    var bumped := done + [BumpVersion(BumpType(c.versionType))];
    Snoc(done, BumpVersion(BumpType(c.versionType)));
    if !o.bumpPass {
      FailIsAscending(bumped, c, o);
    } else {
      PublishIsAscending(bumped, c, o);
    }
  }

  lemma PublishIsAscending(bumped: seq<Step>, c: Config, o: Outcomes)
    requires Ascending(bumped) && EndsBelow(bumped, Rank(WriteCredentials))
    ensures var published := bumped + [WriteCredentials, Publish];
      && Ascending(published)
      && Ascending(Fail(published, c, o).steps)
      && Ascending(Finish(published + [RemoveCredentials], c, o).steps)
  {
    var written := bumped + [WriteCredentials];
    var published := written + [Publish];
    Snoc(bumped, WriteCredentials);
    Snoc(written, Publish);
    assert bumped + [WriteCredentials, Publish] == published;
    FailIsAscending(published, c, o);
    var removed := published + [RemoveCredentials];
    Snoc(published, RemoveCredentials);
    Snoc(removed, PublishedNotice);
  }

  lemma GateIsAscending(done: seq<Step>, c: Config, o: Outcomes)
    requires Ascending(done) && EndsBelow(done, Rank(MajorCheck))
    ensures Ascending(Gate(done, c, o).steps)
  {
    if !Truthy(c.manualCheckOnMajor) {
      ReleaseIsAscending(done, c, o);
    } else {
      var checked := done + [MajorCheck];
      Snoc(done, MajorCheck);
      if o.gate == Blocked {
        FailIsAscending(checked, c, o);
      } else if o.gate == Passed {
        ReleaseIsAscending(checked, c, o);
      }
    }
  }

  /** Every run takes its steps in the workflow's order, each at most once. */
  lemma PlanIsOrdered(c: Config, o: Outcomes)
    ensures InWorkflowOrder(Plan(c, o).steps)
  {
    if !Truthy(c.manualOnly) {
      var tests := TestSteps(c);
      if tests != [] && !o.testsPass {
        FailIsAscending(tests, c, o);
      } else {
        GateIsAscending(tests, c, o);
      }
    }
    AscendingIsOrdered(Plan(c, o).steps);
  }

  /** A run ends with exit code 0 or 1. */
  lemma PlanExitCodes(c: Config, o: Outcomes)
    ensures Plan(c, o).exitCode == 0 || Plan(c, o).exitCode == 1
  {
  }

  /** manualOnly stops the run with exit code 1 before tests, version bump and publish; at most the one notice is sent. */
  lemma ManualOnlyStopsRun(c: Config, o: Outcomes)
    requires Truthy(c.manualOnly)
    ensures Plan(c, o).exitCode == 1
    ensures Plan(c, o).steps == if o.webhookOk then [ManualOnlyNotice] else []
  {
  }

  /** The tests run exactly when manualOnly is off, runTests is truthy and testCommand is a string, with the command split on spaces. */
  lemma TestsRunWhenConfigured(c: Config, o: Outcomes)
    ensures (exists i :: 0 <= i < |Plan(c, o).steps| && Plan(c, o).steps[i].RunTests?)
      <==> !Truthy(c.manualOnly) && TestsConfigured(c)
    ensures !Truthy(c.manualOnly) && TestsConfigured(c) ==>
      Plan(c, o).steps[0] == RunTests(TestCommandParts(c.testCommand.s).0, TestCommandParts(c.testCommand.s).1)
  {
    var r := Plan(c, o);
    if !Truthy(c.manualOnly) && TestsConfigured(c) {
      assert r.steps[0].RunTests?;
    } else if !Truthy(c.manualOnly) {
      GateStepsAfterTests([], c, o);
    }
  }

  /** Without configured tests, no step of the gate or the release runs tests. */
  lemma GateStepsAfterTests(done: seq<Step>, c: Config, o: Outcomes)
    requires forall i :: 0 <= i < |done| ==> !done[i].RunTests?
    ensures forall i :: 0 <= i < |Gate(done, c, o).steps| ==> !Gate(done, c, o).steps[i].RunTests?
  {
  }

  /** The major check runs exactly when manualOnly is off, manualCheckOnMajor is truthy and the tests did not fail. */
  lemma MajorCheckRunsWhenConfigured(c: Config, o: Outcomes)
    ensures MajorCheck in Plan(c, o).steps
      <==> !Truthy(c.manualOnly) && Truthy(c.manualCheckOnMajor) && (!TestsConfigured(c) || o.testsPass)
  {
    if !Truthy(c.manualOnly) && Truthy(c.manualCheckOnMajor) && (!TestsConfigured(c) || o.testsPass) {
      var steps := Plan(c, o).steps;
      assert steps[|TestSteps(c)|] == MajorCheck;
    }
  }

  /**
   * `npm version` runs exactly when manualOnly is off, the tests did not fail
   * and the major check, if configured, passed: failed tests, a Major update
   * or a failed registry lookup end the run before the version bump.
   */
  lemma BumpRunsWhenReached(c: Config, o: Outcomes)
    ensures BumpVersion(BumpType(c.versionType)) in Plan(c, o).steps
      <==> && !Truthy(c.manualOnly)
           && (!TestsConfigured(c) || o.testsPass)
           && (!Truthy(c.manualCheckOnMajor) || o.gate == Passed)
  {
    if !Truthy(c.manualOnly) && (!TestsConfigured(c) || o.testsPass) && (!Truthy(c.manualCheckOnMajor) || o.gate == Passed) {
      BumpReached(c, o);
    } else {
      BumpSkipped(c, o);
    }
  }

  lemma BumpReached(c: Config, o: Outcomes)
    requires !Truthy(c.manualOnly) && (!TestsConfigured(c) || o.testsPass)
    requires !Truthy(c.manualCheckOnMajor) || o.gate == Passed
    ensures BumpVersion(BumpType(c.versionType)) in Plan(c, o).steps
  {
    var tests := TestSteps(c);
    var checked := tests + (if Truthy(c.manualCheckOnMajor) then [MajorCheck] else []);
    assert Plan(c, o) == Gate(tests, c, o) == Release(checked, c, o);
    assert Release(checked, c, o).steps[|checked|] == BumpVersion(BumpType(c.versionType));
  }

  lemma BumpSkipped(c: Config, o: Outcomes)
    requires Truthy(c.manualOnly) || (TestsConfigured(c) && !o.testsPass)
      || (Truthy(c.manualCheckOnMajor) && o.gate != Passed)
    ensures BumpVersion(BumpType(c.versionType)) !in Plan(c, o).steps
  {
    var tests := TestSteps(c);
    var checked := tests + (if Truthy(c.manualCheckOnMajor) then [MajorCheck] else []);
    var bump := BumpVersion(BumpType(c.versionType));
    if !Truthy(c.manualOnly) {
      assert bump !in checked;
      if tests != [] && !o.testsPass {
        NoStepAddedByFail(tests, c, o, bump);
      } else if o.gate == Blocked {
        assert Plan(c, o) == Fail(checked, c, o);
        NoStepAddedByFail(checked, c, o, bump);
      }
    }
  }

  /** The failure path adds nothing but the attention notice. */
  lemma NoStepAddedByFail(done: seq<Step>, c: Config, o: Outcomes, s: Step)
    requires s !in done && s != AttentionNotice
    ensures s !in Fail(done, c, o).steps
  {
  }

  /** Whether a run gets as far as `npm publish`: every earlier stage succeeded. */
  predicate ReachesPublish(c: Config, o: Outcomes)
  {
    && !Truthy(c.manualOnly)
    && (!TestsConfigured(c) || o.testsPass)
    && (!Truthy(c.manualCheckOnMajor) || o.gate == Passed)
    && o.bumpPass
  }

  /** The steps up to and including `npm publish`. */
  function UpToPublish(c: Config): seq<Step>
  {
    TestSteps(c) + (if Truthy(c.manualCheckOnMajor) then [MajorCheck] else [])
      + [BumpVersion(BumpType(c.versionType)), WriteCredentials, Publish]
  }

  /**
   * The shape of every run: one that reaches `npm publish` starts with the
   * steps up to it and then fails or finishes; any other run exits 1 without
   * touching the credentials file or publishing.
   */
  lemma PlanShape(c: Config, o: Outcomes)
    ensures ReachesPublish(c, o) && !o.publishPass ==> Plan(c, o) == Fail(UpToPublish(c), c, o)
    ensures ReachesPublish(c, o) && o.publishPass ==> Plan(c, o) == Finish(UpToPublish(c) + [RemoveCredentials], c, o)
    ensures !ReachesPublish(c, o) ==> (Plan(c, o).exitCode == 1
      && WriteCredentials !in Plan(c, o).steps && Publish !in Plan(c, o).steps && RemoveCredentials !in Plan(c, o).steps)
  {
    var tests := TestSteps(c);
    var checked := tests + (if Truthy(c.manualCheckOnMajor) then [MajorCheck] else []);
    if ReachesPublish(c, o) {
      assert checked + [BumpVersion(BumpType(c.versionType))] + [WriteCredentials, Publish] == UpToPublish(c);
      assert Gate(tests, c, o) == Release(checked, c, o);
    } else if !Truthy(c.manualOnly) {
      var bumped := checked + [BumpVersion(BumpType(c.versionType))];
      assert Publish !in tests && WriteCredentials !in tests && RemoveCredentials !in tests;
      assert Publish !in bumped && WriteCredentials !in bumped && RemoveCredentials !in bumped;
    }
  }

  /**
   * `npm publish` runs exactly when every earlier stage succeeded, and it is
   * preceded by `npm version` with `versionType || 'patch'`.
   */
  lemma PublishFollowsBump(c: Config, o: Outcomes)
    ensures Publish in Plan(c, o).steps <==> ReachesPublish(c, o)
    ensures Publish in Plan(c, o).steps ==>
      exists i, j :: 0 <= i < j < |Plan(c, o).steps|
        && Plan(c, o).steps[i] == BumpVersion(BumpType(c.versionType))
        && Plan(c, o).steps[j] == Publish
  {
    PlanShape(c, o);
    if ReachesPublish(c, o) {
      var steps := Plan(c, o).steps;
      var k := |UpToPublish(c)|;
      assert steps[..k] == UpToPublish(c);
      assert steps[k - 3] == BumpVersion(BumpType(c.versionType));
      assert steps[k - 1] == Publish;
    }
  }

  /**
   * The credentials file is removed only after a successful publish: when
   * `npm publish` fails, `.npmrc` stays behind.
   */
  lemma CredentialsLeftOnPublishFailure(c: Config, o: Outcomes)
    ensures RemoveCredentials in Plan(c, o).steps <==> ReachesPublish(c, o) && o.publishPass
    ensures WriteCredentials in Plan(c, o).steps && RemoveCredentials !in Plan(c, o).steps
      <==> ReachesPublish(c, o) && !o.publishPass
  {
    PlanShape(c, o);
    if ReachesPublish(c, o) {
      var steps := Plan(c, o).steps;
      var k := |UpToPublish(c)|;
      assert steps[k - 2] == WriteCredentials;
      if o.publishPass {
        assert steps[k] == RemoveCredentials;
      } else {
        assert RemoveCredentials !in UpToPublish(c);
      }
    }
  }

  /**
   * Exit code 0 exactly when the package was published, `discordNotifications`
   * can be read, and the success notice, if one is asked for, was delivered.
   */
  lemma SuccessIffPublished(c: Config, o: Outcomes)
    ensures Plan(c, o).exitCode == 0 <==>
      && ReachesPublish(c, o) && o.publishPass
      && !c.discordNotifications.Nullish?
      && (c.discordNotifications.Settings? && Truthy(c.discordNotifications.onPublish) ==> o.webhookOk)
  {
    PlanShape(c, o);
  }

  /** The configuration written in setup mode (bin/main.js:159-169). */
  const SetupDefaults := Config(
    manualCheckOnMajor := Bool(true),
    runTests := Bool(true),
    manualOnly := Bool(false),
    testCommand := Str("npm test"),
    discordNotifications := Settings(Bool(true), Bool(true)),
    versionType := Str("patch"))

  /**
   * With the setup defaults and every step succeeding, a run tests with
   * `npm test`, checks majors, bumps the patch version, publishes, removes
   * the credentials, sends the publish notice and exits 0.
   */
  lemma DefaultRunPublishes()
    ensures Plan(SetupDefaults, Outcomes(true, Passed, true, true, true)) == Run(
      [RunTests("npm", ["test"]), MajorCheck, BumpVersion(Str("patch")),
       WriteCredentials, Publish, RemoveCredentials, PublishedNotice], 0)
  {
    var o := Outcomes(true, Passed, true, true, true);
    NpmTestParts();
    var tests := TestSteps(SetupDefaults);
    assert tests == [RunTests("npm", ["test"])];
    assert Plan(SetupDefaults, o) == Gate(tests, SetupDefaults, o);
    assert Gate(tests, SetupDefaults, o) == Release(tests + [MajorCheck], SetupDefaults, o);
  }

  /** The default test command runs `npm` with the single argument `test`. */
  lemma NpmTestParts()
    ensures TestCommandParts("npm test") == ("npm", ["test"])
  {
    Strings.SplitNoSeparator("test", ' ');
    Strings.SplitAtSeparator("npm", "test", ' ');
    assert "npm" + [' '] + "test" == "npm test";
  }
}
