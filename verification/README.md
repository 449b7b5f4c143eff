# studio-build-action: the run planner

`index.js` of this GitHub Action reads action inputs from `INPUT_*` environment
variables. It changes into an optional working directory and picks the platform.
It checks that `package.json` exists and requires `github_token`. Then it copies
a fixed table of inputs into the variables `electron-builder` expects, writes
`.npmrc` for the Font Awesome registry, and runs the build command.

Once the file system, clock and subprocess are taken out, what remains is one
decision procedure. It is modelled as the pure function `Action.Plan(host, env)`:

- `env` is the process environment as one `map<string, string>`. It holds the
  `INPUT_*` keys the action reads and the variables it writes, as `process.env`
  does.
- `host` stands for the effects. It carries `process.platform`, whether `chdir`
  succeeds, whether `package.json` exists, whether the `.npmrc` write succeeds,
  and the two `Date` renderings.
- The result is one of:
  - `Exit(message, env)`: `process.exit(1)` with its message.
  - `Caught(fault, env)`: an exception swallowed by the top-level handler.
  - `Run(env, npmrc, command)`: the build launched with that environment.

`Action.Finish` then gives the process's exit status.

Modules:

- `JsValues`: `undefined`, strings and booleans, with truthiness, `||`, the
  not-blank test, `.toString()` (which throws on `undefined`) and
  template-literal interpolation.
- `Environment`: the `INPUT_<UPPER-CASED NAME>` key convention,
  `getEnvVariable` and `setEnvVariable`.
- `Npmrc`: the `.npmrc` text and its line structure.
- `Action`: platform dispatch, the ordered copy table, and the planner. The
  fifteen variables the run writes form the enumeration `Var`, and `Name`
  gives each one's key, such as `GH_TOKEN`. A `Frame` between two environments
  says which variables may differ. Every key outside the fifteen names, inputs
  included, is equal in both.
- `Properties`: the promises of the run. `OriginOf` records where each variable's
  value comes from, as the action's inputs document it: a forwarded input, an
  input defaulting to `false`, a certificate chosen by platform, the timestamp,
  or a constant. `Expected` turns that into a variable-by-variable description of
  the launched environment. It is independent of the order of the writes, and
  `RunEnvMatchesExpected` proves that the planner meets it.

Two behaviours of the code are kept as written:

- An absent `commit_id` makes `getEnvVariable('commit_id').toString()` throw.
  The handler logs it, so `.npmrc` is never written, the build never runs, and
  the process still ends with status 0. Unlike the `${…}` interpolation used for
  `.npmrc`, which renders `undefined` as text, `.toString()` on `undefined`
  throws a `TypeError`.
- An absent `fontawesome_token` is written into `.npmrc` as the text `undefined`.

The guarded setter lets the boolean `false` through because `false !== ''`. So
`GENERATE_SOURCEMAP` and `ENABLE_AUTH` are always set, to `false` when their
input is blank.

## Model

| member | source | states |
|---|---|---|
| Environment.GetEnvVariable | index.js:50-56 | a required input that is missing or empty is fatal with the message `'<name>' input variable is not defined`; otherwise the value read from `INPUT_<NAME>` is returned |
| Environment.InputKeyShape | index.js:51 | the key is `INPUT_` followed by the name with ASCII letters upper-cased and every other character, such as `-`, kept |
| Properties.WorkingDirectoryKey | index.js:51 | `working-directory` is read from `INPUT_WORKING-DIRECTORY` |
| Properties.SameKeyIffSameUpper | index.js:51 | two input names share a key exactly when they agree up to ASCII case |
| Environment.SetEnv | index.js:61-65 | a blank value leaves the environment unchanged; otherwise the variable holds `value.toString()`; no other key changes, and no input is disturbed when the name is not an `INPUT_` key |
| JsValues.CallToString | index.js:103 | `.toString()` fails exactly on `undefined` and returns the string itself for a string |
| JsValues.InterpolateAgreesWithToString | index.js:103-106 | template interpolation and `.toString()` agree exactly where the call does not throw |
| JsValues.Or | index.js:98-99 | `a \|\| b` is the left operand when that is truthy and the right operand otherwise, so it is truthy iff either operand is |
| JsValues.Interpolate | index.js:106 | `${v}` never throws: `undefined` renders as the text `undefined` and a string as itself |
| Environment.UpperChar | index.js:51 | `toUpperCase` on one character raises a lower-case ASCII letter by 32 and keeps every other character; the result is never lower-case |
| Environment.Upper | index.js:51 | `toUpperCase` keeps the length and raises each character on its own, leaving no lower-case ASCII letter |
| Environment.Input | index.js:51 | `process.env[INPUT_<NAME>]` is `undefined` exactly when the key is absent, and otherwise the string stored under it |
| Action.WantsChdir | index.js:72-73 | a directory change is requested exactly when `INPUT_WORKING-DIRECTORY` is present and non-empty |
| Action.ChdirPasses | index.js:72-75 | the run fails at the directory change exactly when a non-empty `working-directory` is given and `chdir` fails |
| Action.PlatformOf | index.js:35-44 | `darwin` gives mac, `win32` gives windows, anything else gives linux |
| Action.CertificateRows | index.js:86-92 | linux forwards no certificates; mac forwards only `mac_*` inputs and windows only `windows_*` inputs, into `CSC_LINK`/`CSC_KEY_PASSWORD` |
| Action.CopyInputs | index.js:94-102 | running the ordered table leaves each target as its copy alone would, never disturbs an input, and changes nothing outside the targets |
| Action.Configure | index.js:82-102 | after `GH_TOKEN`, the certificates and the table, only those targets changed and each holds its own copy's value |
| Action.Timestamp | index.js:104 | `BUILD_TIME` renders the given timestamp when `build_time` is truthy, and the current time otherwise; it is never empty |
| Action.Record | index.js:103-104 | `COMMIT_ID` becomes the commit unless it is empty, `BUILD_TIME` becomes the timestamp, and nothing else changes, inputs included |
| Action.Publish | index.js:106-112 | the build is launched exactly when `.npmrc` can be written; a failed write is caught with nothing changed; on launch only `ADBLOCK` changes, to `true`, and the command comes from `build_script` |
| Action.BuildCommand | index.js:111 | the command is `build_script` when non-empty, otherwise `yarn build` |
| Action.Launch | index.js:103-112 | the steps after the fatal checks never exit directly and write nothing but output variables; after configuration only `COMMIT_ID`, `BUILD_TIME` and `ADBLOCK` can change, and only the first two when the build is not launched |
| Action.Plan | index.js:70-116 | the run exits directly exactly when the directory change passes and `package.json` is missing or the token is blank, with the environment untouched; only the fifteen output variables are ever written |
| Action.Finish | index.js:10-13 | status 1 exactly for a direct exit and 0 for every other outcome; a caught exception or a failed build is logged with its fault |
| Npmrc.NpmrcText | index.js:106 | `.npmrc` starts with the registry line and a line feed, and ends with the interpolated token |
| Npmrc.NpmrcHasTwoLines | index.js:106 | for a token without line feeds the file is exactly two lines, registry and auth, with no trailing newline |
| Properties.ChdirFailureIsCaught | index.js:72-75 | the outcome is the caught directory-change failure, with nothing written, exactly when a working directory is requested and `chdir` fails |
| Properties.MissingPackageJsonExits | index.js:26-30 | a missing `package.json` exits with ``Missing `package.json` file`` before any variable is written |
| Properties.MissingTokenExits | index.js:52-53 | a missing or empty `github_token` exits with `'github_token' input variable is not defined` before any variable is written |
| Properties.ExitCodeOneOnlyForTheTwoChecks | index.js:10-13 | the process status is 1 exactly in the two fatal cases; a failed build ends with status 0 and the error logged |
| Properties.AbsentCommitIdIsCaught | index.js:103 | the outcome is the caught `commit_id` TypeError exactly when both checks pass and `commit_id` is absent; `COMMIT_ID`, `BUILD_TIME` and `ADBLOCK` are then untouched |
| Properties.EmptyCommitIdSkipsWrite | index.js:103 | an empty `commit_id` never raises the `commit_id` TypeError, and whatever the outcome `COMMIT_ID` is left as it was before the run |
| Properties.WriteFailureIsCaught | index.js:106 | a failed `.npmrc` write is caught exactly when both checks pass, `commit_id` is present and the write fails |
| Properties.WriteFailureLeavesAdblock | index.js:106-109 | when the write fails, `ADBLOCK` is left as it was before the run |
| Properties.RunIff | index.js:70-116 | the build is launched exactly when both checks pass, `commit_id` is present and `.npmrc` is written |
| Properties.OnlyOutputsWritten | index.js:82-109 | whatever the outcome, only the fifteen output variables may differ from the starting environment, and every input still reads the same |
| Properties.MirrorKeys | index.js:94-102 | after configuration each table target holds what `Expected` gives it: the input when non-empty, else `false` for the two defaulted entries, else the earlier value |
| Properties.CertificateKeys | index.js:86-92 | after configuration `CSC_LINK` and `CSC_KEY_PASSWORD` hold what `Expected` gives them for the platform |
| Properties.ConfiguredSurvives | index.js:103-109 | the steps after configuration never change a variable other than `COMMIT_ID`, `BUILD_TIME` and `ADBLOCK`, whatever the outcome |
| Properties.RunEnvMatchesExpected | index.js:82-109 | in the launched environment each of the fifteen variables holds what `Expected` gives it, and every other key holds what it held before the run |
| Properties.ApplyCopyMeaning | index.js:94-99 | a table copy forwards a non-empty input and otherwise keeps the target, or sets `false` for the two defaulted entries |
| Properties.TokenForwarded | index.js:82 | once both fatal checks pass, `GH_TOKEN` equals the `github_token` input whatever the outcome: launched, or caught on `commit_id` or on the `.npmrc` write |
| Properties.DefaultsAlwaysSet | index.js:98-109 | in a launched build `GENERATE_SOURCEMAP` and `ENABLE_AUTH` are the input or `false`, `ADBLOCK` is `true`, and `BUILD_TIME` is set and non-empty |
| Properties.CertificatesFollowPlatform | index.js:86-92 | on mac the signing variables come from `mac_*` inputs only, on windows from `windows_*` inputs only |
| Properties.LinuxLeavesCertificatesAlone | index.js:86-92 | on linux `CSC_LINK` and `CSC_KEY_PASSWORD` are never written, whatever the outcome |
| Properties.RunCommand | index.js:111 | the launched command is `build_script` when that input is non-empty, and `yarn build` otherwise |
| Properties.RunNpmrc | index.js:106 | `.npmrc` is the registry line, a line feed and the auth line with the `fontawesome_token` input, or with `undefined` when the input is absent |

## Left out

- Subprocess execution (`execSync`, inherited stdio, the child's exit status): only the command string is modelled. A failed build is the `buildSucceeds` parameter of `Action.Finish`.
- File-system effects (`chdir`, `existsSync`, `writeFileSync`) are flags of `Host`. The location of `.npmrc` and the content of `package.json` are not modelled.
- `Date` rendering: `new Date().toString()` and `new Date(Number(s)).toString()` are the `now` and `renderTimestamp` fields of `Host`. They are opaque strings, non-empty as `Date.prototype.toString` always is.
- Console output (`console.error`, `console.log`) and the mechanics of `process.exit`: only the exit message and the caught fault are kept.
- `null` input values: `process.env` never holds `null`, so the `null` branches of the two guards have no case.
- `toUpperCase` is modelled on ASCII letters only. Every input name the action uses is ASCII.
- Windows treats environment keys case-insensitively. The model uses exact keys. This matches Windows only when no two keys of the environment differ just in case; otherwise a write such as `GH_TOKEN` there also replaces `gh_token`, which the model, and `Properties.OnlyOutputsWritten` with it, treats as a separate, unchanged key.
- Npmrc.NpmrcHasTwoLines: covers only tokens without a line feed, because a token holding one splits into further lines.
- The module-level `runAction()` call (index.js:118) is the single invocation of the modelled function.
