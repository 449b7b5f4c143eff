/**
 * What the run promises, stated against the planner: the input-key convention,
 * the two direct exits, the exception paths, platform dispatch, the defaults,
 * and a variable-by-variable description of the environment the build is
 * launched with.
 */
module Properties {
  import opened JsValues
  import opened Environment
  import opened Npmrc
  import opened Action

  /** Input `input` copied to `v` when it is non-empty; otherwise `v` as it was. */
  function Forwarded(env: Env, input: string, v: Var): Option<string> {
    var x := Input(env, input);
    if x.Str? && x.s != "" then Some(x.s) else Get(env, Name(v))
  }

  /** Input `input` when it is non-empty; otherwise the text `false`. */
  function OrFalse(env: Env, input: string): string {
    var x := Input(env, input);
    if x.Str? && x.s != "" then x.s else "false"
  }

  /** Where the launched value of a variable comes from, as the action's inputs document it. */
  datatype Origin =
    | Forward(input: string)                          // the input when non-empty, else as it was
    | OrFalseDefault(input: string)                   // the input when non-empty, else `false`
    | Certificate(macInput: string, windowsInput: string)  // by platform; linux leaves it alone
    | Stamp(input: string)                            // the rendered timestamp
    | Constant(text: string)

  function OriginOf(v: Var): Origin {
    match v
    case GhToken => Forward("github_token")
    case CscLink => Certificate("mac_certs", "windows_certs")
    case CscKeyPassword => Certificate("mac_certs_password", "windows_certs_password")
    case Build => Forward("build")
    case Project => Forward("project")
    case ProjectName => Forward("project_name")
    case Ci => Forward("ci")
    case GenerateSourcemap => OrFalseDefault("generate_sourcemap")
    case EnableAuth => OrFalseDefault("enable_auth")
    case ReactAppMixpanelToken => Forward("react_app_mixpanel_token")
    case PremiumEditor => Forward("premium_editor")
    case BuildId => Forward("build_id")
    case CommitId => Forward("commit_id")
    case BuildTime => Stamp("build_time")
    case Adblock => Constant("true")
  }

  /** The value each variable the run writes holds when the build is launched, stated
      variable by variable from its origin rather than as a sequence of writes. */
  function Expected(h: Host, env: Env, v: Var): Option<string> {
    match OriginOf(v)
    case Forward(input) => Forwarded(env, input, v)
    case OrFalseDefault(input) => Some(OrFalse(env, input))
    case Certificate(macInput, windowsInput) =>
      (match PlatformOf(h.os)
       case Mac => Forwarded(env, macInput, v)
       case Windows => Forwarded(env, windowsInput, v)
       case Linux => Get(env, Name(v)))
    case Stamp(input) => Some(Timestamp(h, Input(env, input)))
    case Constant(text) => Some(text)
  }

  // ---------------------------------------------------------------------------
  // Input lookup

  /** Names keep their non-letters: `working-directory` is read from `INPUT_WORKING-DIRECTORY`. */
  lemma WorkingDirectoryKey()
    ensures InputKey("working-directory") == "INPUT_WORKING-DIRECTORY"
  {
    var name, key := "working-directory", InputKey("working-directory");
    var expected := "INPUT_WORKING-DIRECTORY";
    assert |key| == |expected|;
    forall i | 0 <= i < |key| ensures key[i] == expected[i] {
      if i >= |InputPrefix| {
        assert key[i] == UpperChar(name[i - |InputPrefix|]);
      }
    }
  }

  /** Two input names are read from the same key exactly when they agree up to ASCII case. */
  lemma SameKeyIffSameUpper(a: string, b: string)
    ensures InputKey(a) == InputKey(b) <==> Upper(a) == Upper(b)
  {
    if InputKey(a) == InputKey(b) {
      assert InputKey(a)[|InputPrefix|..] == Upper(a);
      assert InputKey(b)[|InputPrefix|..] == Upper(b);
    }
  }

  // ---------------------------------------------------------------------------
  // Guarded write

  /** One copy leaves its target forwarded from its input, or `false` when it has that
      default and the input is blank. */
  lemma ApplyCopyMeaning(env: Env, c: Copy)
    ensures c.orElse == None ==> Get(ApplyCopy(env, c), Name(c.target)) == Forwarded(env, c.input, c.target)
    ensures c.orElse == Some(false) ==> Get(ApplyCopy(env, c), Name(c.target)) == Some(OrFalse(env, c.input))
  {
    var v := Input(env, c.input);
    if c.orElse == Some(false) && !Truthy(v) {
      assert CopyValue(env, c) == Bool(false);
      BlankVersusFalsy(Bool(false));
    }
  }

  // ---------------------------------------------------------------------------
  // The three outcomes

  /** A failed directory change is caught before anything else happens, with nothing
      written, and that happens exactly when a directory is requested and cannot be
      entered. */
  lemma ChdirFailureIsCaught(h: Host, env: Env)
    ensures Plan(h, env) == Caught(ChdirFailed, env) <==> WantsChdir(env) && !h.chdirSucceeds
  {
  }

  /** A missing `package.json` ends the process before any variable is written. */
  lemma MissingPackageJsonExits(h: Host, env: Env)
    requires ChdirPasses(h, env) && !h.packageJsonExists
    ensures Plan(h, env) == Exit("Missing `package.json` file", env)
  {
  }

  /** A missing or empty `github_token` ends the process before any variable is written. */
  lemma MissingTokenExits(h: Host, env: Env)
    requires ChdirPasses(h, env) && h.packageJsonExists && Blank(Input(env, "github_token"))
    ensures Plan(h, env) == Exit("'github_token' input variable is not defined", env)
  {
    GithubTokenMessage();
  }

  lemma GithubTokenMessage()
    ensures NotDefinedMessage("github_token") == "'github_token' input variable is not defined"
  {
  }

  /** The run reaches the configuration stage exactly when both fatal checks pass. */
  predicate Configures(h: Host, env: Env) {
    ChdirPasses(h, env) && h.packageJsonExists && !Blank(Input(env, "github_token"))
  }

  /** The conditions under which the build is launched (see `RunIff`): both fatal checks
      pass, `commit_id` is present, even empty, and `.npmrc` can be written. */
  predicate Launches(h: Host, env: Env) {
    Configures(h, env) && InputKey("commit_id") in env && h.writeSucceeds
  }

  lemma PlanLaunches(h: Host, env: Env)
    requires Configures(h, env)
    ensures Plan(h, env) == Launch(h, env, Input(env, "github_token"), PlatformOf(h.os))
  {
    assert GetEnvVariable(env, "github_token", true) == Value(Input(env, "github_token"));
  }

  /** The process exits with status 1 exactly for the two direct exits; a failed build is
      logged and the status stays 0. */
  lemma ExitCodeOneOnlyForTheTwoChecks(h: Host, env: Env, buildSucceeds: bool)
    ensures Finish(Plan(h, env), buildSucceeds).exitCode == 1
        <==> ChdirPasses(h, env) && (!h.packageJsonExists || Blank(Input(env, "github_token")))
    ensures Plan(h, env).Run? && !buildSucceeds ==> Finish(Plan(h, env), buildSucceeds) == Termination(0, Some(BuildFailed))
  {
  }

  /** Configuration never writes the variables that are set after it. */
  lemma ConfigureLeavesLaterWrites(env: Env, token: JsValue, p: Platform, v: Var)
    requires v in DirectWrites && v != GhToken
    ensures Get(Configure(env, token, p), Name(v)) == Get(env, Name(v))
  {
    RowsWellFormed(p);
    assert v !in {GhToken} + Targets(Rows(p));
  }

  /** An absent `commit_id` makes `.toString()` throw: the handler catches it, so neither
      `COMMIT_ID`, `BUILD_TIME` nor `ADBLOCK` is written, and no build is launched. */
  lemma AbsentCommitIdIsCaught(h: Host, env: Env)
    ensures (Plan(h, env).Caught? && Plan(h, env).fault == CommitIdUndefined)
        <==> Configures(h, env) && InputKey("commit_id") !in env
    ensures Configures(h, env) && InputKey("commit_id") !in env ==>
      && Get(Plan(h, env).env, Name(CommitId)) == Get(env, Name(CommitId))
      && Get(Plan(h, env).env, Name(BuildTime)) == Get(env, Name(BuildTime))
      && Get(Plan(h, env).env, Name(Adblock)) == Get(env, Name(Adblock))
  {
    if Configures(h, env) {
      var p := PlatformOf(h.os);
      var token := Input(env, "github_token");
      PlanLaunches(h, env);
      var configured := Configure(env, token, p);
      assert Input(configured, "commit_id") == Input(env, "commit_id");
      if InputKey("commit_id") !in env {
        assert Plan(h, env) == Caught(CommitIdUndefined, configured);
        ConfigureLeavesLaterWrites(env, token, p, CommitId);
        ConfigureLeavesLaterWrites(env, token, p, BuildTime);
        ConfigureLeavesLaterWrites(env, token, p, Adblock);
      }
    }
  }

  /** The build is launched exactly when both fatal checks pass, `commit_id` is present (even
      empty) and `.npmrc` can be written. */
  lemma RunIff(h: Host, env: Env)
    ensures Plan(h, env).Run?
        <==> Configures(h, env) && InputKey("commit_id") in env && h.writeSucceeds
  {
    if Configures(h, env) {
      var p := PlatformOf(h.os);
      PlanLaunches(h, env);
      assert Input(Configure(env, Input(env, "github_token"), p), "commit_id") == Input(env, "commit_id");
    }
  }

  /** A failed `.npmrc` write is caught exactly when the run reaches it. */
  lemma WriteFailureIsCaught(h: Host, env: Env)
    ensures (Plan(h, env).Caught? && Plan(h, env).fault == NpmrcWriteFailed)
        <==> Configures(h, env) && InputKey("commit_id") in env && !h.writeSucceeds
  {
    if Configures(h, env) {
      PlanLaunches(h, env);
      var configured := Configure(env, Input(env, "github_token"), PlatformOf(h.os));
      assert Input(configured, "commit_id") == Input(env, "commit_id");
    }
  }

  /** The failed write is caught after `BUILD_TIME` is set and before `ADBLOCK` is. */
  lemma WriteFailureLeavesAdblock(h: Host, env: Env)
    requires Configures(h, env) && InputKey("commit_id") in env && !h.writeSucceeds
    ensures Get(Plan(h, env).env, Name(Adblock)) == Get(env, Name(Adblock))
  {
    WriteFailureIsCaught(h, env);
    PlanLaunches(h, env);
    var p := PlatformOf(h.os);
    var token := Input(env, "github_token");
    UnlaunchedKeepsAdblock(h, env, token, p);
    ConfigureLeavesLaterWrites(env, token, p, Adblock);
  }

  /** A run that stops before the build leaves `ADBLOCK` as configuration left it. */
  lemma UnlaunchedKeepsAdblock(h: Host, env: Env, token: JsValue, p: Platform)
    requires !Launch(h, env, token, p).Run?
    ensures Get(Launch(h, env, token, p).env, Name(Adblock)) == Get(Configure(env, token, p), Name(Adblock))
  {
    FrameAt(Configure(env, token, p), Launch(h, env, token, p).env, {CommitId, BuildTime}, Adblock);
  }

  // ---------------------------------------------------------------------------
  // The launched environment

  /** Nothing but the fifteen output variables is ever written, and every input still reads
      as it did, whatever the outcome. */
  lemma OnlyOutputsWritten(h: Host, env: Env)
    ensures AgreeOutside(env, Plan(h, env).env, OutputVars)
    ensures forall n :: Input(Plan(h, env).env, n) == Input(env, n)
  {
    var e := Plan(h, env).env;
    forall n ensures Input(e, n) == Input(env, n) {
      OutputVarsAreNotInputKeys();
      assert InputKey(n) !in OutputVars;
      assert Get(e, InputKey(n)) == Get(env, InputKey(n));
    }
  }

  /** `Expected` on a table row's target is what that row alone would write. */
  lemma ExpectedMirror(h: Host, env: Env, i: int)
    requires 0 <= i < |Mirrors|
    ensures Mirrors[i].orElse == None ==>
      Expected(h, env, Mirrors[i].target) == Forwarded(env, Mirrors[i].input, Mirrors[i].target)
    ensures Mirrors[i].orElse == Some(false) ==>
      Expected(h, env, Mirrors[i].target) == Some(OrFalse(env, Mirrors[i].input))
  {
  }

  /** Each table row's target, after configuration, is as `Expected` says. */
  lemma MirrorKeys(h: Host, env: Env)
    ensures forall i :: 0 <= i < |Mirrors| ==>
      Get(Configure(env, Input(env, "github_token"), PlatformOf(h.os)), Name(Mirrors[i].target))
        == Expected(h, env, Mirrors[i].target)
  {
    var p := PlatformOf(h.os);
    forall i | 0 <= i < |Mirrors|
      ensures Get(Configure(env, Input(env, "github_token"), p), Name(Mirrors[i].target))
        == Expected(h, env, Mirrors[i].target)
    {
      var c := Mirrors[i];
      assert Rows(p)[|CertificateRows(p)| + i] == c;
      ApplyCopyMeaning(env, c);
      ExpectedMirror(h, env, i);
      assert c.orElse == None || c.orElse == Some(false);
    }
  }

  /** `Expected` on the signing variables, by platform. */
  lemma ExpectedCertificates(h: Host, env: Env)
    ensures PlatformOf(h.os) == Mac ==>
      && Expected(h, env, CscLink) == Forwarded(env, "mac_certs", CscLink)
      && Expected(h, env, CscKeyPassword) == Forwarded(env, "mac_certs_password", CscKeyPassword)
    ensures PlatformOf(h.os) == Windows ==>
      && Expected(h, env, CscLink) == Forwarded(env, "windows_certs", CscLink)
      && Expected(h, env, CscKeyPassword) == Forwarded(env, "windows_certs_password", CscKeyPassword)
    ensures PlatformOf(h.os) == Linux ==>
      && Expected(h, env, CscLink) == Get(env, Name(CscLink))
      && Expected(h, env, CscKeyPassword) == Get(env, Name(CscKeyPassword))
  {
  }

  /** On Linux configuration leaves the signing variables as they were. */
  lemma LinuxConfigureSkipsCertificates(env: Env, token: JsValue)
    ensures Get(Configure(env, token, Linux), Name(CscLink)) == Get(env, Name(CscLink))
    ensures Get(Configure(env, token, Linux), Name(CscKeyPassword)) == Get(env, Name(CscKeyPassword))
  {
    MirrorTargetsAreNotCertificates();
    assert Rows(Linux) == Mirrors;
    assert CscLink !in {GhToken} + Targets(Rows(Linux));
    assert CscKeyPassword !in {GhToken} + Targets(Rows(Linux));
  }

  /** On mac and windows configuration copies the platform's two certificate inputs. */
  lemma SigningConfigureCopiesCertificates(env: Env, token: JsValue, p: Platform)
    requires p != Linux
    ensures Get(Configure(env, token, p), Name(CscLink)) == Forwarded(env, CertificateRows(p)[0].input, CscLink)
    ensures Get(Configure(env, token, p), Name(CscKeyPassword)) == Forwarded(env, CertificateRows(p)[1].input, CscKeyPassword)
  {
    var rows := CertificateRows(p);
    assert Rows(p)[0] == rows[0] && Rows(p)[1] == rows[1];
    ApplyCopyMeaning(env, rows[0]);
    ApplyCopyMeaning(env, rows[1]);
  }

  /** The certificate variables, after configuration, are as `Expected` says. */
  lemma CertificateKeys(h: Host, env: Env)
    ensures Get(Configure(env, Input(env, "github_token"), PlatformOf(h.os)), Name(CscLink))
         == Expected(h, env, CscLink)
    ensures Get(Configure(env, Input(env, "github_token"), PlatformOf(h.os)), Name(CscKeyPassword))
         == Expected(h, env, CscKeyPassword)
  {
    var p := PlatformOf(h.os);
    ExpectedCertificates(h, env);
    if p == Linux {
      LinuxConfigureSkipsCertificates(env, Input(env, "github_token"));
    } else {
      SigningConfigureCopiesCertificates(env, Input(env, "github_token"), p);
    }
  }

  /** The environment the build is launched with, as the sequence of writes after
      configuration. */
  lemma LaunchedEnv(h: Host, env: Env)
    requires Launches(h, env)
    ensures Configures(h, env) && Input(env, "commit_id").Str?
    ensures var configured := Configure(env, Input(env, "github_token"), PlatformOf(h.os));
            var committed := SetEnv(configured, Name(CommitId), Input(env, "commit_id"));
            var stamped := SetEnv(committed, Name(BuildTime), Str(Timestamp(h, Input(env, "build_time"))));
            Plan(h, env).env == SetEnv(stamped, Name(Adblock), Bool(true))
  {
    RunIff(h, env);
    PlanLaunches(h, env);
    var configured := Configure(env, Input(env, "github_token"), PlatformOf(h.os));
    assert Input(configured, "commit_id") == Input(env, "commit_id");
    NamesAreNotInputKeys();
  }

  /** The three writes after configuration, on any environment `c`. */
  lemma TrailingWrites(c: Env, commit: JsValue, stamp: NonEmptyString)
    ensures var final := SetEnv(SetEnv(SetEnv(c, Name(CommitId), commit), Name(BuildTime), Str(stamp)), Name(Adblock), Bool(true));
      && Get(final, Name(GhToken)) == Get(c, Name(GhToken))
      && Get(final, Name(CommitId)) == (if Blank(commit) then Get(c, Name(CommitId)) else CallToString(commit))
      && Get(final, Name(BuildTime)) == Some(stamp)
      && Get(final, Name(Adblock)) == Some("true")
  {
    NameInjective();
  }

  /** A variable other than `COMMIT_ID`, `BUILD_TIME` and `ADBLOCK` keeps, whatever the
      outcome, the value configuration gave it. */
  lemma ConfiguredSurvives(h: Host, env: Env, v: Var)
    requires Configures(h, env) && v !in LaterWrites
    ensures Get(Plan(h, env).env, Name(v))
         == Get(Configure(env, Input(env, "github_token"), PlatformOf(h.os)), Name(v))
  {
    PlanLaunches(h, env);
    var token, p := Input(env, "github_token"), PlatformOf(h.os);
    FrameAt(Configure(env, token, p), Launch(h, env, token, p).env, LaterWrites, v);
  }

  /** The four variables written outside the copy tables, in the launched environment. */
  lemma DirectKeys(h: Host, env: Env)
    requires Launches(h, env)
    ensures Get(Plan(h, env).env, Name(GhToken)) == Forwarded(env, "github_token", GhToken)
    ensures Get(Plan(h, env).env, Name(CommitId)) == Forwarded(env, "commit_id", CommitId)
    ensures Get(Plan(h, env).env, Name(BuildTime)) == Some(Timestamp(h, Input(env, "build_time")))
    ensures Get(Plan(h, env).env, Name(Adblock)) == Some("true")
  {
    LaunchedEnv(h, env);
    var token := Input(env, "github_token");
    var p := PlatformOf(h.os);
    var configured := Configure(env, token, p);
    TrailingWrites(configured, Input(env, "commit_id"), Timestamp(h, Input(env, "build_time")));
    ConfigureLeavesLaterWrites(env, token, p, CommitId);
  }

  /** `Expected` on the variables that are not copied from a table. */
  lemma ExpectedDirect(h: Host, env: Env)
    ensures Expected(h, env, GhToken) == Forwarded(env, "github_token", GhToken)
    ensures Expected(h, env, CommitId) == Forwarded(env, "commit_id", CommitId)
    ensures Expected(h, env, BuildTime) == Some(Timestamp(h, Input(env, "build_time")))
    ensures Expected(h, env, Adblock) == Some("true")
  {
  }

  /** An environment holding the direct writes' values is described by `Expected` there. */
  lemma AssembleDirect(h: Host, env: Env, e: Env)
    requires Get(e, Name(GhToken)) == Forwarded(env, "github_token", GhToken)
    requires Get(e, Name(CommitId)) == Forwarded(env, "commit_id", CommitId)
    requires Get(e, Name(BuildTime)) == Some(Timestamp(h, Input(env, "build_time")))
    requires Get(e, Name(Adblock)) == Some("true")
    ensures forall v :: v in DirectWrites ==> Get(e, Name(v)) == Expected(h, env, v)
  {
    ExpectedDirect(h, env);
  }

  /** An environment holding `Expected` on each table row's target and on the certificates is
      described by `Expected` outside the direct writes. */
  lemma AssembleConfigured(h: Host, env: Env, e: Env)
    requires forall i :: 0 <= i < |Mirrors| ==> Get(e, Name(Mirrors[i].target)) == Expected(h, env, Mirrors[i].target)
    requires Get(e, Name(CscLink)) == Expected(h, env, CscLink)
    requires Get(e, Name(CscKeyPassword)) == Expected(h, env, CscKeyPassword)
    ensures forall v :: v !in DirectWrites ==> Get(e, Name(v)) == Expected(h, env, v)
  {
    forall v | v !in DirectWrites ensures Get(e, Name(v)) == Expected(h, env, v) {
      if v != CscLink && v != CscKeyPassword {
        assert Mirrors[MirrorIndex(v)].target == v;
      }
    }
  }

  /** The table row that writes `v`. */
  function MirrorIndex(v: Var): (i: nat)
    requires v !in DirectWrites && v != CscLink && v != CscKeyPassword
    ensures i < |Mirrors| && Mirrors[i].target == v
  {
    match v
    case Build => 0
    case Project => 1
    case ProjectName => 2
    case Ci => 3
    case GenerateSourcemap => 4
    case EnableAuth => 5
    case ReactAppMixpanelToken => 6
    case PremiumEditor => 7
    case BuildId => 8
  }

  /** When the build is launched, every variable the run writes holds what `Expected` says,
      and every other variable holds what it held before the run. */
  lemma RunEnvMatchesExpected(h: Host, env: Env)
    requires Launches(h, env)
    ensures forall v :: Get(Plan(h, env).env, Name(v)) == Expected(h, env, v)
    ensures forall k :: k !in OutputVars ==> Get(Plan(h, env).env, k) == Get(env, k)
  {
    RunIff(h, env);
    PlanLaunches(h, env);
    OnlyOutputsWritten(h, env);
    DirectKeys(h, env);
    MirrorKeys(h, env);
    CertificateKeys(h, env);
    var configured := Configure(env, Input(env, "github_token"), PlatformOf(h.os));
    AssembleDirect(h, env, Plan(h, env).env);
    AssembleConfigured(h, env, configured);
    forall v ensures Get(Plan(h, env).env, Name(v)) == Expected(h, env, v) {
      if v !in DirectWrites {
        assert Get(Plan(h, env).env, Name(v)) == Get(configured, Name(v));
      }
    }
  }

  /** `Expected` on the variables with a default. */
  lemma ExpectedDefaults(h: Host, env: Env)
    ensures Expected(h, env, GenerateSourcemap) == Some(OrFalse(env, "generate_sourcemap"))
    ensures Expected(h, env, EnableAuth) == Some(OrFalse(env, "enable_auth"))
  {
  }

  /** `GENERATE_SOURCEMAP` and `ENABLE_AUTH` are always set, to the input or to `false`;
      `ADBLOCK` is `true`; `BUILD_TIME` is set to a non-empty rendering. */
  lemma DefaultsAlwaysSet(h: Host, env: Env)
    requires Launches(h, env)
    ensures Get(Plan(h, env).env, Name(GenerateSourcemap)) == Some(OrFalse(env, "generate_sourcemap"))
    ensures Get(Plan(h, env).env, Name(EnableAuth)) == Some(OrFalse(env, "enable_auth"))
    ensures Get(Plan(h, env).env, Name(Adblock)) == Some("true")
    ensures Get(Plan(h, env).env, Name(BuildTime)).Some? && Get(Plan(h, env).env, Name(BuildTime)).value != ""
  {
    RunEnvMatchesExpected(h, env);
    ExpectedDefaults(h, env);
    DirectKeys(h, env);
    assert Get(Plan(h, env).env, Name(GenerateSourcemap)) == Expected(h, env, GenerateSourcemap);
    assert Get(Plan(h, env).env, Name(EnableAuth)) == Expected(h, env, EnableAuth);
  }

  /** Once both fatal checks pass, `GH_TOKEN` holds the `github_token` input whatever the
      outcome: launched, or caught on `commit_id` or on the `.npmrc` write. */
  lemma TokenForwarded(h: Host, env: Env)
    requires Configures(h, env)
    ensures Input(env, "github_token").Str?
    ensures Get(Plan(h, env).env, Name(GhToken)) == Some(Input(env, "github_token").s)
  {
    ConfiguredSurvives(h, env, GhToken);
  }

  /** On macOS only the `mac_*` inputs feed the signing variables, on Windows only the
      `windows_*` inputs. */
  lemma CertificatesFollowPlatform(h: Host, env: Env)
    requires Launches(h, env)
    ensures PlatformOf(h.os) == Mac ==>
      && Get(Plan(h, env).env, Name(CscLink)) == Forwarded(env, "mac_certs", CscLink)
      && Get(Plan(h, env).env, Name(CscKeyPassword)) == Forwarded(env, "mac_certs_password", CscKeyPassword)
    ensures PlatformOf(h.os) == Windows ==>
      && Get(Plan(h, env).env, Name(CscLink)) == Forwarded(env, "windows_certs", CscLink)
      && Get(Plan(h, env).env, Name(CscKeyPassword)) == Forwarded(env, "windows_certs_password", CscKeyPassword)
  {
    RunEnvMatchesExpected(h, env);
    ExpectedCertificates(h, env);
    assert Get(Plan(h, env).env, Name(CscLink)) == Expected(h, env, CscLink);
    assert Get(Plan(h, env).env, Name(CscKeyPassword)) == Expected(h, env, CscKeyPassword);
  }

  lemma CertificatesAreNotDirect()
    ensures CscLink !in LaterWrites && CscKeyPassword !in LaterWrites
  {
  }

  /** On Linux the signing variables are never written, whatever the outcome. */
  lemma LinuxLeavesCertificatesAlone(h: Host, env: Env)
    requires PlatformOf(h.os) == Linux
    ensures Get(Plan(h, env).env, Name(CscLink)) == Get(env, Name(CscLink))
    ensures Get(Plan(h, env).env, Name(CscKeyPassword)) == Get(env, Name(CscKeyPassword))
  {
    if Configures(h, env) {
      CertificatesAreNotDirect();
      ConfiguredSurvives(h, env, CscLink);
      ConfiguredSurvives(h, env, CscKeyPassword);
      LinuxConfigureSkipsCertificates(env, Input(env, "github_token"));
    }
  }

  /** An empty `commit_id` is not an error: the run goes on, and `COMMIT_ID` keeps its earlier
      value whatever the outcome. */
  lemma EmptyCommitIdSkipsWrite(h: Host, env: Env)
    requires Configures(h, env) && Get(env, InputKey("commit_id")) == Some("")
    ensures !(Plan(h, env).Caught? && Plan(h, env).fault == CommitIdUndefined)
    ensures Get(Plan(h, env).env, Name(CommitId)) == Get(env, Name(CommitId))
  {
    AbsentCommitIdIsCaught(h, env);
    if h.writeSucceeds {
      DirectKeys(h, env);
    } else {
      PlanLaunches(h, env);
      var token, p := Input(env, "github_token"), PlatformOf(h.os);
      var configured := Configure(env, token, p);
      assert Input(configured, "commit_id") == Str("");
      ConfigureLeavesLaterWrites(env, token, p, CommitId);
    }
  }

  /** The launched command is `build_script`, or `yarn build` when that input is blank. */
  lemma RunCommand(h: Host, env: Env)
    requires Launches(h, env)
    ensures Plan(h, env).command
         == (if Blank(Input(env, "build_script")) then "yarn build" else Input(env, "build_script").s)
  {
    OnlyOutputsWritten(h, env);
  }

  /** The `.npmrc` text carries the `fontawesome_token` input interpolated, so an absent token
      is written as the text `undefined`. */
  lemma RunNpmrc(h: Host, env: Env)
    requires Launches(h, env)
    ensures Plan(h, env).npmrc
         == RegistryLine + "\n" + AuthPrefix + Interpolate(Input(env, "fontawesome_token"))
    ensures InputKey("fontawesome_token") !in env ==>
      Plan(h, env).npmrc == RegistryLine + "\n" + AuthPrefix + "undefined"
  {
    RunIff(h, env);
    PlanLaunches(h, env);
    OnlyOutputsWritten(h, env);
    NamesAreNotInputKeys();
  }
}
