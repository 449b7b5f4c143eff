/**
 * The action's run: from the host's state and the process environment to one of
 * three outcomes. A direct `process.exit(1)` (missing `package.json`, missing
 * `github_token`); an exception swallowed by the top-level handler; or the build
 * command launched with the configured environment and the `.npmrc` text.
 */
module Action {
  import opened JsValues
  import opened Environment
  import opened Npmrc

  /** The value of `getPlatform()`. */
  datatype Platform = Mac | Windows | Linux

  /** `getPlatform()` on `process.platform`: only `darwin` and `win32` are singled out. */
  function PlatformOf(os: string): (p: Platform)
    ensures p == Mac <==> os == "darwin"
    ensures p == Windows <==> os == "win32"
    ensures p == Linux <==> os != "darwin" && os != "win32"
  {
    if os == "darwin" then Mac else if os == "win32" then Windows else Linux
  }

  /** The environment variables the run writes, one constructor per name. */
  datatype Var =
    | GhToken | CscLink | CscKeyPassword | Build | Project | ProjectName | Ci
    | GenerateSourcemap | EnableAuth | ReactAppMixpanelToken | PremiumEditor | BuildId
    | CommitId | BuildTime | Adblock

  /** The key each variable is written under. */
  function Name(v: Var): string {
    match v
    case GhToken => "GH_TOKEN"
    case CscLink => "CSC_LINK"
    case CscKeyPassword => "CSC_KEY_PASSWORD"
    case Build => "BUILD"
    case Project => "PROJECT"
    case ProjectName => "PROJECT_NAME"
    case Ci => "CI"
    case GenerateSourcemap => "GENERATE_SOURCEMAP"
    case EnableAuth => "ENABLE_AUTH"
    case ReactAppMixpanelToken => "REACT_APP_MIXPANEL_TOKEN"
    case PremiumEditor => "PREMIUM_EDITOR"
    case BuildId => "BUILD_ID"
    case CommitId => "COMMIT_ID"
    case BuildTime => "BUILD_TIME"
    case Adblock => "ADBLOCK"
  }

  /** Different variables are written under different keys: the names differ in length or
      in their first character. */
  lemma NameInjective()
    ensures forall a, b :: Name(a) == Name(b) ==> a == b
  {
    forall a, b | a != b ensures Name(a) != Name(b) {
      assert |Name(a)| != |Name(b)| || Name(a)[0] != Name(b)[0];
    }
  }

  /** Every environment variable the run may write. */
  const OutputVars: set<string> := {
    "GH_TOKEN", "CSC_LINK", "CSC_KEY_PASSWORD", "BUILD", "PROJECT", "PROJECT_NAME", "CI",
    "GENERATE_SOURCEMAP", "ENABLE_AUTH", "REACT_APP_MIXPANEL_TOKEN", "PREMIUM_EDITOR",
    "BUILD_ID", "COMMIT_ID", "BUILD_TIME", "ADBLOCK"
  }

  /** `OutputVars` holds the name of every variable. */
  lemma OutputVarsMember(v: Var)
    ensures Name(v) in OutputVars
  {
    match v
    case GhToken =>
    case CscLink =>
    case CscKeyPassword =>
    case Build =>
    case Project =>
    case ProjectName =>
    case Ci =>
    case GenerateSourcemap =>
    case EnableAuth =>
    case ReactAppMixpanelToken =>
    case PremiumEditor =>
    case BuildId =>
    case CommitId =>
    case BuildTime =>
    case Adblock =>
  }

  /** No output variable lies under the `INPUT_` prefix, so writes never change what an
      input reads. */
  lemma OutputVarsAreNotInputKeys()
    ensures forall k :: k in OutputVars ==> !IsInputKey(k)
  {
    forall k | k in OutputVars ensures !IsInputKey(k) {
      assert |k| < |InputPrefix| || k[0] != InputPrefix[0];
    }
  }

  lemma NamesAreNotInputKeys()
    ensures forall v :: !IsInputKey(Name(v))
  {
    forall v ensures !IsInputKey(Name(v)) {
      OutputVarsMember(v);
      OutputVarsAreNotInputKeys();
    }
  }

  /** `b` differs from `a` at most in the variables `vs`: every key outside `OutputVars`
      and every variable outside `vs` holds the same entry in both. */
  ghost predicate Frame(a: Env, b: Env, vs: set<Var>) {
    && AgreeOutside(a, b, OutputVars)
    && (forall v :: v !in vs ==> Get(a, Name(v)) == Get(b, Name(v)))
  }

  lemma FrameTrans(a: Env, b: Env, c: Env, s: set<Var>, t: set<Var>)
    requires Frame(a, b, s) && Frame(b, c, t)
    ensures Frame(a, c, s + t)
  {
  }

  /** A variable outside `vs` holds the same entry in both environments. */
  lemma FrameAt(a: Env, b: Env, vs: set<Var>, v: Var)
    requires Frame(a, b, vs) && v !in vs
    ensures Get(b, Name(v)) == Get(a, Name(v))
  {
  }

  lemma FrameWeaken(a: Env, b: Env, small: set<Var>, large: set<Var>)
    requires Frame(a, b, small) && small <= large
    ensures Frame(a, b, large)
  {
  }

  /** A guarded write of one variable changes at most that variable, and no input. */
  lemma WriteFrame(env: Env, v: Var, x: JsValue)
    ensures Frame(env, SetEnv(env, Name(v), x), {v})
    ensures forall n :: Input(SetEnv(env, Name(v), x), n) == Input(env, n)
  {
    OutputVarsMember(v);
    NameInjective();
    NamesAreNotInputKeys();
  }

  /** One line `setEnvVariable(target, getEnvVariable(input) [|| orElse])` of the run. */
  datatype Copy = Copy(input: string, target: Var, orElse: Option<bool>)

  /** The value handed to `setEnvVariable` by a copy, read from `env`. */
  function CopyValue(env: Env, c: Copy): JsValue {
    var v := Input(env, c.input);
    match c.orElse
    case None => v
    case Some(b) => Or(v, Bool(b))
  }

  function ApplyCopy(env: Env, c: Copy): Env {
    SetEnv(env, Name(c.target), CopyValue(env, c))
  }

  function Targets(rows: seq<Copy>): set<Var> {
    set i | 0 <= i < |rows| :: rows[i].target
  }

  /** Targets are pairwise distinct. */
  ghost predicate WellFormed(rows: seq<Copy>) {
    forall i, j :: 0 <= i < j < |rows| ==> rows[i].target != rows[j].target
  }

  /** What running `rows` in order from `env` guarantees of the resulting `r`: each target
      ends up as that copy alone would leave it when applied to `env`, inputs are never
      disturbed, and nothing outside the targets changes. */
  ghost predicate CopiedFrom(env: Env, rows: seq<Copy>, r: Env) {
    && Frame(env, r, Targets(rows))
    && (forall n :: Input(r, n) == Input(env, n))
    && (forall c {:trigger ApplyCopy(env, c)} :: c in rows ==> Get(r, Name(c.target)) == Get(ApplyCopy(env, c), Name(c.target)))
  }

  /** Runs the copies in order; the order does not matter to the result. */
  function CopyInputs(env: Env, rows: seq<Copy>): (r: Env)
    requires WellFormed(rows)
    ensures CopiedFrom(env, rows, r)
    decreases |rows|
  {
    if rows == [] then env
    else
      var r := CopyInputs(ApplyCopy(env, rows[0]), rows[1..]);
      CopyStep(env, rows, r);
      r
  }

  /** One copy followed by the rest behaves as the whole table. */
  lemma CopyStep(env: Env, rows: seq<Copy>, r: Env)
    requires WellFormed(rows) && rows != []
    requires CopiedFrom(ApplyCopy(env, rows[0]), rows[1..], r)
    ensures CopiedFrom(env, rows, r)
  {
    var first, rest := rows[0], rows[1..];
    var next := ApplyCopy(env, first);
    WriteFrame(env, first.target, CopyValue(env, first));
    assert Targets(rows) == {first.target} + Targets(rest) by {
      assert forall i :: 0 <= i < |rest| ==> rest[i] == rows[i + 1];
      assert forall i :: 0 < i < |rows| ==> rows[i] == rest[i - 1];
    }
    FrameTrans(env, next, r, {first.target}, Targets(rest));
    forall c | c in rows ensures Get(r, Name(c.target)) == Get(ApplyCopy(env, c), Name(c.target)) {
      if c == first {
        assert c.target !in Targets(rest) by {
          assert forall i :: 0 <= i < |rest| ==> rest[i] == rows[i + 1];
        }
      } else {
        assert c in rest;
        var j :| 0 <= j < |rest| && rest[j] == c;
        assert rows[j + 1] == c;
        assert c.target != first.target;
        assert Get(r, Name(c.target)) == Get(ApplyCopy(next, c), Name(c.target));
        assert CopyValue(next, c) == CopyValue(env, c);
        assert Get(next, Name(c.target)) == Get(env, Name(c.target));
      }
    }
  }

  /** Certificate inputs forwarded by platform (index.js lines 86-92). */
  function CertificateRows(p: Platform): (rows: seq<Copy>)
    ensures p == Linux <==> rows == []
    ensures forall i :: 0 <= i < |rows| ==> rows[i].orElse == None && rows[i].target in {CscLink, CscKeyPassword}
    ensures p == Mac ==> forall i :: 0 <= i < |rows| ==> rows[i].input in {"mac_certs", "mac_certs_password"}
    ensures p == Windows ==> forall i :: 0 <= i < |rows| ==> rows[i].input in {"windows_certs", "windows_certs_password"}
  {
    match p
    case Mac => [Copy("mac_certs", CscLink, None), Copy("mac_certs_password", CscKeyPassword, None)]
    case Windows => [Copy("windows_certs", CscLink, None), Copy("windows_certs_password", CscKeyPassword, None)]
    case Linux => []
  }

  /** The fixed table of optional inputs (index.js lines 94-102); two of them default to `false`. */
  const Mirrors: seq<Copy> := [
    Copy("build", Build, None),
    Copy("project", Project, None),
    Copy("project_name", ProjectName, None),
    Copy("ci", Ci, None),
    Copy("generate_sourcemap", GenerateSourcemap, Some(false)),
    Copy("enable_auth", EnableAuth, Some(false)),
    Copy("react_app_mixpanel_token", ReactAppMixpanelToken, None),
    Copy("premium_editor", PremiumEditor, None),
    Copy("build_id", BuildId, None)
  ]

  function Rows(p: Platform): seq<Copy> {
    CertificateRows(p) + Mirrors
  }

  /** The variables written outside the copy tables. */
  const DirectWrites: set<Var> := {GhToken, CommitId, BuildTime, Adblock}

  /** The direct writes that come after configuration. */
  const LaterWrites: set<Var> := {CommitId, BuildTime, Adblock}

  lemma WellFormedAppend(a: seq<Copy>, b: seq<Copy>)
    requires WellFormed(a) && WellFormed(b)
    requires Targets(a) !! Targets(b)
    ensures WellFormed(a + b)
    ensures Targets(a + b) == Targets(a) + Targets(b)
  {
    var ab := a + b;
    forall i | 0 <= i < |ab| ensures ab[i].target in Targets(a) + Targets(b) {
      if i < |a| {
        assert ab[i].target == a[i].target;
      } else {
        assert ab[i].target == b[i - |a|].target;
      }
    }
    forall i | 0 <= i < |a| ensures a[i].target in Targets(ab) {
      assert ab[i] == a[i];
    }
    forall i | 0 <= i < |b| ensures b[i].target in Targets(ab) {
      assert ab[|a| + i] == b[i];
    }
    forall i, j | 0 <= i < j < |ab| ensures ab[i].target != ab[j].target {
      if j < |a| {
        assert ab[i] == a[i] && ab[j] == a[j];
      } else if i >= |a| {
        assert ab[i] == b[i - |a|] && ab[j] == b[j - |a|];
      } else {
        assert ab[i] == a[i] && ab[j] == b[j - |a|];
        assert ab[i].target in Targets(a) && ab[j].target in Targets(b);
      }
    }
  }

  lemma MirrorsWellFormed()
    ensures WellFormed(Mirrors)
  {
  }

  lemma MirrorTargetsAreNotDirect()
    ensures Targets(Mirrors) !! DirectWrites
  {
    assert forall i :: 0 <= i < |Mirrors| ==> Mirrors[i].target !in DirectWrites;
  }

  lemma CertificateTargets(p: Platform)
    ensures Targets(CertificateRows(p)) <= {CscLink, CscKeyPassword}
  {
  }

  lemma MirrorTargetsAreNotCertificates()
    ensures Targets(Mirrors) !! {CscLink, CscKeyPassword}
  {
    assert forall i :: 0 <= i < |Mirrors| ==> Mirrors[i].target != CscLink && Mirrors[i].target != CscKeyPassword;
  }

  lemma CertificateRowsWellFormed(p: Platform)
    ensures WellFormed(CertificateRows(p))
  {
    var rows := CertificateRows(p);
    if p != Linux {
      assert rows[0].target != rows[1].target;
    }
  }

  /** The rows of a platform have distinct targets, none of them written directly. */
  lemma RowsWellFormed(p: Platform)
    ensures WellFormed(Rows(p))
    ensures Targets(Rows(p)) !! DirectWrites
    ensures Targets(Rows(p)) == Targets(CertificateRows(p)) + Targets(Mirrors)
  {
    CertificateTargets(p);
    MirrorTargetsAreNotCertificates();
    MirrorTargetsAreNotDirect();
    CertificateRowsWellFormed(p);
    MirrorsWellFormed();
    WellFormedAppend(CertificateRows(p), Mirrors);
  }

  type NonEmptyString = s: string | s != [] witness "?"

  /** What the run needs from the machine it runs on; each field stands for one effect or
      library call of the source. */
  datatype Host = Host(
    os: string,                                   // `process.platform`
    chdirSucceeds: bool,                          // `chdir(workingDirectory)` does not throw
    packageJsonExists: bool,                      // `existsSync('./package.json')` after it
    writeSucceeds: bool,                          // `writeFileSync('.npmrc', …)` does not throw
    now: NonEmptyString,                          // `new Date().toString()`
    renderTimestamp: string -> NonEmptyString     // `new Date(Number(s)).toString()`
  )

  /** Exceptions the top-level handler catches. */
  datatype Fault = ChdirFailed | CommitIdUndefined | NpmrcWriteFailed | BuildFailed

  /** How a run ends. Each case carries the environment at that point. */
  datatype Outcome =
    | Exit(message: string, env: Env)
    | Caught(fault: Fault, env: Env)
    | Run(env: Env, npmrc: string, command: string)

  const MissingPackageJson: string := "Missing `package.json` file"

  /** The `working-directory` input asks for a directory change: its key is present with a
      non-empty value. */
  predicate WantsChdir(env: Env): (b: bool)
    ensures b <==> InputKey("working-directory") in env && env[InputKey("working-directory")] != ""
  {
    Truthy(Input(env, "working-directory"))
  }

  /** The run gets past the directory change: none is requested, or it succeeds. */
  predicate ChdirPasses(h: Host, env: Env): (b: bool)
    ensures !b <==> InputKey("working-directory") in env && env[InputKey("working-directory")] != "" && !h.chdirSucceeds
  {
    !WantsChdir(env) || h.chdirSucceeds
  }

  /** `BUILD_TIME`: the given millisecond timestamp when `build_time` is truthy, else now. */
  function Timestamp(h: Host, v: JsValue): (r: NonEmptyString)
    ensures Truthy(v) && v.Str? ==> r == h.renderTimestamp(v.s)
    ensures !Truthy(v) ==> r == h.now
  {
    if v.Str? && v.s != "" then h.renderTimestamp(v.s) else h.now
  }

  /** `getEnvVariable('build_script') || 'yarn build'`. */
  function BuildCommand(v: JsValue): (r: string)
    ensures r != ""
    ensures v.Str? && v.s != "" ==> r == v.s
    ensures Blank(v) ==> r == "yarn build"
  {
    if v.Str? && v.s != "" then v.s else "yarn build"
  }

  /** GH_TOKEN, then the platform's certificates, then the fixed table. Every copied target
      ends up as its copy alone would leave the starting environment. */
  function Configure(env: Env, token: JsValue, p: Platform): (r: Env)
    ensures Frame(env, r, {GhToken} + Targets(Rows(p)))
    ensures forall n :: Input(r, n) == Input(env, n)
    ensures Get(r, Name(GhToken)) == (if Blank(token) then Get(env, Name(GhToken)) else CallToString(token))
    ensures forall c {:trigger ApplyCopy(env, c)} :: c in Rows(p) ==> Get(r, Name(c.target)) == Get(ApplyCopy(env, c), Name(c.target))
  {
    RowsWellFormed(p);
    var signed := SetEnv(env, Name(GhToken), token);
    var r := CopyInputs(signed, Rows(p));
    ConfigureFrame(env, token, p, r);
    ConfigureValues(env, token, p, r);
    r
  }

  /** Configuration changes only the token and the row targets, and never an input. */
  lemma ConfigureFrame(env: Env, token: JsValue, p: Platform, r: Env)
    requires CopiedFrom(SetEnv(env, Name(GhToken), token), Rows(p), r)
    ensures Frame(env, r, {GhToken} + Targets(Rows(p)))
    ensures forall n :: Input(r, n) == Input(env, n)
  {
    var signed := SetEnv(env, Name(GhToken), token);
    WriteFrame(env, GhToken, token);
    FrameTrans(env, signed, r, {GhToken}, Targets(Rows(p)));
  }

  /** The token and each row's target hold what their own write gives. */
  lemma ConfigureValues(env: Env, token: JsValue, p: Platform, r: Env)
    requires CopiedFrom(SetEnv(env, Name(GhToken), token), Rows(p), r)
    ensures Get(r, Name(GhToken)) == (if Blank(token) then Get(env, Name(GhToken)) else CallToString(token))
    ensures forall c {:trigger ApplyCopy(env, c)} :: c in Rows(p) ==> Get(r, Name(c.target)) == Get(ApplyCopy(env, c), Name(c.target))
  {
    var signed := SetEnv(env, Name(GhToken), token);
    WriteFrame(env, GhToken, token);
    assert GhToken !in Targets(Rows(p)) by {
      RowsWellFormed(p);
    }
    forall c | c in Rows(p) ensures Get(r, Name(c.target)) == Get(ApplyCopy(env, c), Name(c.target)) {
      assert Get(r, Name(c.target)) == Get(ApplyCopy(signed, c), Name(c.target));
      assert CopyValue(signed, c) == CopyValue(env, c);
    }
  }

  /** The body of `runAction`, with its effects abstracted by `h`. */
  function Plan(h: Host, env: Env): (o: Outcome)
    ensures o.Exit? <==> ChdirPasses(h, env) && (!h.packageJsonExists || Blank(Input(env, "github_token")))
    ensures o.Exit? ==> o.env == env
    ensures AgreeOutside(env, o.env, OutputVars)
  {
    if !ChdirPasses(h, env) then Caught(ChdirFailed, env)
    else
      var platform := PlatformOf(h.os);
      if !h.packageJsonExists then Exit(MissingPackageJson, env)
      else
        match GetEnvVariable(env, "github_token", true)
        case Fatal(message) => Exit(message, env)
        case Value(token) => Launch(h, env, token, platform)
  }

  /** Everything after the two fatal checks: configuration, the `.npmrc` write and the
      planned build. It never exits directly, it writes only output variables, and after
      configuration only `COMMIT_ID`, `BUILD_TIME` and, once the build is launched,
      `ADBLOCK`. */
  function Launch(h: Host, env: Env, token: JsValue, platform: Platform): (o: Outcome)
    ensures !o.Exit?
    ensures AgreeOutside(env, o.env, OutputVars)
    ensures Frame(Configure(env, token, platform), o.env, LaterWrites)
    ensures !o.Run? ==> Frame(Configure(env, token, platform), o.env, {CommitId, BuildTime})
  {
    var configured := Configure(env, token, platform);
    match CallToString(Input(configured, "commit_id"))
    case None => Caught(CommitIdUndefined, configured)
    case Some(commit) =>
      var stamped := Record(h, configured, commit);
      var o := Publish(h, stamped);
      FrameWeaken(configured, stamped, {CommitId, BuildTime}, LaterWrites);
      FrameTrans(configured, stamped, o.env, LaterWrites, {Adblock});
      assert LaterWrites + {Adblock} == LaterWrites;
      o
  }

  /** `COMMIT_ID` set to the commit, then `BUILD_TIME` to the timestamp: only those two
      variables change, and no input. */
  function Record(h: Host, configured: Env, commit: string): (r: Env)
    ensures Frame(configured, r, {CommitId, BuildTime})
    ensures forall n :: Input(r, n) == Input(configured, n)
    ensures Get(r, Name(CommitId)) == (if commit == "" then Get(configured, Name(CommitId)) else Some(commit))
    ensures Get(r, Name(BuildTime)) == Some(Timestamp(h, Input(configured, "build_time")))
  {
    NameInjective();
    var committed := SetEnv(configured, Name(CommitId), Str(commit));
    WriteFrame(configured, CommitId, Str(commit));
    var stamp := Str(Timestamp(h, Input(committed, "build_time")));
    WriteFrame(committed, BuildTime, stamp);
    FrameTrans(configured, committed, SetEnv(committed, Name(BuildTime), stamp), {CommitId}, {BuildTime});
    assert {CommitId} + {BuildTime} == {CommitId, BuildTime};
    SetEnv(committed, Name(BuildTime), stamp)
  }

  /** The `.npmrc` write and, when it succeeds, `ADBLOCK` and the build: only `ADBLOCK`
      changes, and only when the build is launched. */
  function Publish(h: Host, stamped: Env): (o: Outcome)
    ensures !o.Exit?
    ensures o.Run? <==> h.writeSucceeds
    ensures !o.Run? ==> o == Caught(NpmrcWriteFailed, stamped)
    ensures Frame(stamped, o.env, {Adblock})
    ensures o.Run? ==> Get(o.env, Name(Adblock)) == Some("true")
    ensures o.Run? ==> o.command == BuildCommand(Input(stamped, "build_script"))
  {
    if !h.writeSucceeds then Caught(NpmrcWriteFailed, stamped)
    else
      var final := SetEnv(stamped, Name(Adblock), Bool(true));
      WriteFrame(stamped, Adblock, Bool(true));
      assert Input(final, "build_script") == Input(stamped, "build_script");
      Run(final, NpmrcText(Input(stamped, "fontawesome_token")), BuildCommand(Input(final, "build_script")))
  }

  /** How the process ends. */
  datatype Termination = Termination(exitCode: nat, logged: Option<Fault>)

  /** The end of the process after `o`: a direct exit has status 1; every caught exception,
      including a failed build, is logged and the process ends normally. */
  function Finish(o: Outcome, buildSucceeds: bool): (t: Termination)
    ensures t.exitCode == 1 <==> o.Exit?
    ensures t.logged.Some? <==> o.Caught? || (o.Run? && !buildSucceeds)
    ensures o.Caught? ==> t.logged == Some(o.fault)
    ensures o.Run? && !buildSucceeds ==> t.logged == Some(BuildFailed)
    ensures !o.Exit? ==> t.exitCode == 0
  {
    match o
    case Exit(_, _) => Termination(1, None)
    case Caught(fault, _) => Termination(0, Some(fault))
    case Run(_, _, _) => if buildSucceeds then Termination(0, None) else Termination(0, Some(BuildFailed))
  }
}
