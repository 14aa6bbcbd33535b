# Topaz for Total Test build steps, modelled in Dafny

This project models the core of the Jenkins plugin that runs Topaz for Total Test. The plugin has two build steps:

- **Unit tests.** `TotalTestBuilder` holds the step's configuration and `TotalTestRunner` runs it. The runner builds the command line for the Total Test CLI (`-command=runtest -jenkins -host=… -port=… -pw=… -ts=… …`), launches it, and reports success when the CLI exits with 0.
- **Functional tests.** `TotalTestCTBuilder` holds the configuration and `TotalTestCTRunner` runs it. The runner builds a `-e … -s … -u … -p … -f … -r …` command line. After a zero exit value it reads the suite result file `generated.cli.xasuiteres` from the report folder. The verdict comes from its result type and its code-coverage percentage.
- **Shared helpers.** `TotalTestRunnerUtils` splits and validates `host:port` values, escapes arguments for the launch script, recognises the special test names, and looks up login credentials.

The two builders and the two runners are classes whose methods update their fields or the shared argument list. Every validator, every form check and every piece of the command line is a function. Each argument-adding method is proved to append exactly the tokens its specification function describes. The properties about those functions are proved as lemmas:

- which token is masked in the build log;
- the order of the tokens;
- how test names are routed to `-ts` or `-testsuitelist`;
- how host and port are split;
- how escaping round-trips;
- how the verdict follows from the result type and the coverage threshold.

Modules:

- `Wrappers`: `Option`, `Result` and `Outcome` (pass, or fail with an error).
- `JavaText`: the `java.lang.String` behaviour the plugin relies on:
  - `trim` (drops characters up to `' '`);
  - `split` on one character (trailing empty strings are dropped);
  - ASCII case mapping;
  - `Integer.parseInt` with its 32-bit range;
  - string concatenation of `null`.
- `ArgumentLists`: the argument list builder. It keeps an ordered list of tokens, each flagged as masked or not.
- `TotalTestRunnerUtils`: `TotalTestRunnerUtils.java`.
- `UnitTestBuilder`: `TotalTestBuilder.java`, meaning its fields, its setters, the configuration-form checks and `validateParameters`.
- `UnitTestRunner`: `TotalTestRunner.java`.
- `FunctionalTestBuilder`: `TotalTestCTBuilder.java`.
- `FunctionalTestRunner`: `TotalTestCTRunner.java`.

Source paths below are relative to the plugin repository. `src/main/java/com/compuware/jenkins/totaltest/` is written out in full in each path.

## Model

| member | source | states |
|---|---|---|
| TotalTestRunnerUtils.GetHost | src/main/java/com/compuware/jenkins/totaltest/TotalTestRunnerUtils.java:77-88 | with a ':' present the host is the text before the first ':', which holds no ':'; without one the whole value is the host |
| TotalTestRunnerUtils.GetPort | src/main/java/com/compuware/jenkins/totaltest/TotalTestRunnerUtils.java:98-109 | with a ':' present the value is host + ':' + port; without one the whole value is returned |
| TotalTestRunnerUtils.HostPortRoundTrip | src/main/java/com/compuware/jenkins/totaltest/TotalTestRunnerUtils.java:77-109 | getHost and getPort recover host and port from host + ':' + port when the host is non-empty and colon-free |
| TotalTestRunnerUtils.UnescapeEscape | src/main/java/com/compuware/jenkins/totaltest/TotalTestRunnerUtils.java:195-206 | doubling every double quote can be undone: unescaping an escaped string gives the original |
| TotalTestRunnerUtils.EscapeIsEscaped | src/main/java/com/compuware/jenkins/totaltest/TotalTestRunnerUtils.java:195-206 | every escaped string has its quotes in pairs |
| TotalTestRunnerUtils.EscapeUnescape | src/main/java/com/compuware/jenkins/totaltest/TotalTestRunnerUtils.java:195-206 | escaping is onto the strings with paired quotes: escaping the unescaped form of such a string gives it back |
| TotalTestRunnerUtils.EscapeWithoutQuotes | src/main/java/com/compuware/jenkins/totaltest/TotalTestRunnerUtils.java:195-206 | a string without a double quote is left unchanged |
| TotalTestRunnerUtils.EscapeConcat | src/main/java/com/compuware/jenkins/totaltest/TotalTestRunnerUtils.java:195-206 | escaping distributes over concatenation, so name and value are escaped independently |
| TotalTestRunnerUtils.EscapeForScript | src/main/java/com/compuware/jenkins/totaltest/TotalTestRunnerUtils.java:195-206 | null stays null; otherwise the output is escaped, unescapes to the input, and equals the input when it has no quote |
| TotalTestRunnerUtils.UpperNameIsUpper | src/main/java/com/compuware/jenkins/totaltest/TotalTestRunnerUtils.java:218-226 | the sentinel names are their own upper-case forms |
| TotalTestRunnerUtils.SpecialNamesAreUpperNames | src/main/java/com/compuware/jenkins/totaltest/TotalTestRunnerUtils.java:218-226 | ALL_SCENARIOS, ALL_SUITES and AUTO_SELECT consist of upper-case letters and '_' |
| TotalTestRunnerUtils.IsSpecialTestName | src/main/java/com/compuware/jenkins/totaltest/TotalTestRunnerUtils.java:218-226 | a name is special exactly when its upper-case form is one of ALL_SCENARIOS, ALL_SUITES and AUTO_SELECT |
| TotalTestRunnerUtils.IsTestNameList | src/main/java/com/compuware/jenkins/totaltest/TotalTestRunnerUtils.java:236-245 | an entry with neither a comma nor a wildcard is a single name, which splitting on commas leaves whole |
| TotalTestRunnerUtils.SameUpperNameLetters | src/main/java/com/compuware/jenkins/totaltest/TotalTestRunnerUtils.java:218-226 | a name equal, ignoring case, to an upper-case sentinel consists only of letters and '_' |
| TotalTestRunnerUtils.SpecialTestNameLetters | src/main/java/com/compuware/jenkins/totaltest/TotalTestRunnerUtils.java:218-226 | a special name is non-empty and made of letters and '_' only |
| TotalTestRunnerUtils.SpecialTestNameIsNotList | src/main/java/com/compuware/jenkins/totaltest/TotalTestRunnerUtils.java:218-245 | a special name is never taken for a comma-separated name list |
| TotalTestRunnerUtils.ClassifyHostPort | src/main/java/com/compuware/jenkins/totaltest/TotalTestRunnerUtils.java:149-184 | the value is classified as empty exactly when it trims to the empty string (null counts as empty) |
| TotalTestRunnerUtils.ValidateHostPort | src/main/java/com/compuware/jenkins/totaltest/TotalTestRunnerUtils.java:149-184 | passes iff the value is a well-formed host:port; fails with the empty error iff it trims to empty; fails with the port error iff the port is not numeric |
| TotalTestRunnerUtils.AcceptedHostPortShape | src/main/java/com/compuware/jenkins/totaltest/TotalTestRunnerUtils.java:149-184 | an accepted value is host ':' port followed only by colons, with a non-blank host and a numeric port, both colon-free |
| TotalTestRunnerUtils.SplitPartsReadBack | src/main/java/com/compuware/jenkins/totaltest/TotalTestRunnerUtils.java:77-184 | when split(":") yields exactly host and port, getHost returns that host and getPort returns the port plus the dropped trailing colons |
| TotalTestRunnerUtils.HostPortShapeAccepted | src/main/java/com/compuware/jenkins/totaltest/TotalTestRunnerUtils.java:149-184 | conversely every trimmed host ':' numeric-port value, with any number of trailing colons, is accepted |
| TotalTestRunnerUtils.TrailingColonAccepted | src/main/java/com/compuware/jenkins/totaltest/TotalTestRunnerUtils.java:163-183 | "cw01:30947:" passes because split drops the trailing empty part |
| TotalTestRunnerUtils.LeadingColonRejected | src/main/java/com/compuware/jenkins/totaltest/TotalTestRunnerUtils.java:163-183 | ":30947" is rejected for its missing host |
| TotalTestRunnerUtils.LastWithId | src/main/java/com/compuware/jenkins/totaltest/TotalTestRunnerUtils.java:121-139 | null iff no credential has the id; otherwise a credential with that id, and the last such in the list |
| TotalTestRunnerUtils.GetLoginInformation | src/main/java/com/compuware/jenkins/totaltest/TotalTestRunnerUtils.java:121-139 | the loop over the credentials returns what LastWithId specifies |
| JavaText.SplitTwoWithTrailing | src/main/java/com/compuware/jenkins/totaltest/TotalTestRunner.java:295 | split on a separator of a + sep + b + trailing separators gives exactly [a, b] |
| JavaText.SplitTwoShape | src/main/java/com/compuware/jenkins/totaltest/TotalTestRunner.java:295-300 | a value that splits into two parts is the first part, the separator, the second part and only trailing separators |
| JavaText.EqualsIgnoreCaseIsUpperEquality | src/main/java/com/compuware/jenkins/totaltest/TotalTestRunnerUtils.java:218-226 | equalsIgnoreCase holds iff the upper-case forms are equal |
| JavaText.ParseDecimalText | src/main/java/com/compuware/jenkins/totaltest/TotalTestCTBuilder.java:1112-1134 | parseInt reads back every decimal numeral up to Integer.MAX_VALUE |
| UnitTestBuilder.TotalTestBuilder.constructor | src/main/java/com/compuware/jenkins/totaltest/TotalTestBuilder.java:116-127 | the five constructor arguments are stored trimmed, with null stored as ""; stubs, temp deletion and clear-stats start true; the optional fields start null |
| UnitTestBuilder.TotalTestBuilder.SetHostPort | src/main/java/com/compuware/jenkins/totaltest/AbstractTotalTestBuilderMigration.java:44 | the deprecated host:port field holds what an older configuration stored |
| UnitTestBuilder.TotalTestBuilder.SetCcRepo | src/main/java/com/compuware/jenkins/totaltest/TotalTestBuilder.java:192-195 | the repository is stored trimmed (null becomes "") |
| UnitTestBuilder.TotalTestBuilder.SetCcSystem | src/main/java/com/compuware/jenkins/totaltest/TotalTestBuilder.java:214-217 | the system is stored trimmed (null becomes "") |
| UnitTestBuilder.TotalTestBuilder.SetCcTestId | src/main/java/com/compuware/jenkins/totaltest/TotalTestBuilder.java:236-239 | the test id is stored trimmed (null becomes "") |
| UnitTestBuilder.TotalTestBuilder.SetCcDB2 | src/main/java/com/compuware/jenkins/totaltest/TotalTestBuilder.java:260-263 | whatever the argument, the program type becomes DB2, so getCcDB2 holds and getCcPgmType is DB2 |
| UnitTestBuilder.TotalTestBuilder.GetCcDB2 | src/main/java/com/compuware/jenkins/totaltest/TotalTestBuilder.java:270-273 | true iff a program type is stored and it upper-cases to DB2; then it is also the effective program type |
| UnitTestBuilder.TotalTestBuilder.GetCcPgmType | src/main/java/com/compuware/jenkins/totaltest/TotalTestBuilder.java:280-283 | never empty: the stored type, or TOTALTEST when it is null or empty |
| UnitTestBuilder.EffectivePgmType | src/main/java/com/compuware/jenkins/totaltest/TotalTestBuilder.java:280-283 | a non-empty stored type is kept; a null or empty one becomes TOTALTEST |
| UnitTestBuilder.TotalTestBuilder.SetCcPgmType | src/main/java/com/compuware/jenkins/totaltest/TotalTestBuilder.java:292-295 | the type is stored as given |
| UnitTestBuilder.TotalTestBuilder.SetCcClearStats | src/main/java/com/compuware/jenkins/totaltest/TotalTestBuilder.java:304-307 | the flag is stored |
| UnitTestBuilder.TotalTestBuilder.SetUseStubs | src/main/java/com/compuware/jenkins/totaltest/TotalTestBuilder.java:326-329 | the flag is stored |
| UnitTestBuilder.TotalTestBuilder.SetDeleteTemp | src/main/java/com/compuware/jenkins/totaltest/TotalTestBuilder.java:348-351 | the flag is stored |
| UnitTestBuilder.TotalTestBuilder.SetHlq | src/main/java/com/compuware/jenkins/totaltest/TotalTestBuilder.java:370-373 | the high-level qualifier is stored trimmed (null becomes "") |
| UnitTestBuilder.TotalTestBuilder.Settings | src/main/java/com/compuware/jenkins/totaltest/TotalTestBuilder.java:134-384 | the program type the runner sends is never empty: the stored type, or TOTALTEST when none is stored |
| UnitTestBuilder.FirstBadTestName | src/main/java/com/compuware/jenkins/totaltest/TotalTestBuilder.java:613-625 | the index of the first name that is not a .testsuite or .testscenario file; all before it are |
| UnitTestBuilder.FirstFailingFrom | src/main/java/com/compuware/jenkins/totaltest/TotalTestBuilder.java:613-625 | the first index from a starting point whose element fails the test; every element between passes |
| UnitTestBuilder.CheckTestNames | src/main/java/com/compuware/jenkins/totaltest/TotalTestBuilder.java:613-625 | passes iff every name ends in a test-suite or test-scenario suffix; otherwise reports the first bad name |
| UnitTestBuilder.CheckTestSuite | src/main/java/com/compuware/jenkins/totaltest/TotalTestBuilder.java:601-630 | fails as empty iff the selector is empty; passes iff it is a lone sentinel or every comma-separated name is a test file; names the offending entry otherwise |
| UnitTestBuilder.DoCheckTestSuite | src/main/java/com/compuware/jenkins/totaltest/TotalTestBuilder.java:601-630 | the same verdict on the trimmed form value |
| UnitTestBuilder.SpecialSelectorAccepted | src/main/java/com/compuware/jenkins/totaltest/TotalTestBuilder.java:606-612 | a lone special name is accepted as a selector |
| UnitTestBuilder.SpecialNameShape | src/main/java/com/compuware/jenkins/totaltest/TotalTestBuilder.java:606-612 | a special name is trimmed, comma-free, and splits into itself alone |
| UnitTestBuilder.SpecialIgnoresLowering | src/main/java/com/compuware/jenkins/totaltest/TotalTestBuilder.java:615-619 | lower-casing a name does not change whether it is special |
| UnitTestBuilder.LowerCaseUnchanged | src/main/java/com/compuware/jenkins/totaltest/TotalTestBuilder.java:615 | lower-casing a name without capitals leaves it unchanged |
| UnitTestBuilder.SuiteFileName | src/main/java/com/compuware/jenkins/totaltest/TotalTestBuilder.java:620-623 | a trimmed lower-case name ending in .testsuite is a test file name |
| UnitTestBuilder.SpecialNameInListRejected | src/main/java/com/compuware/jenkins/totaltest/TotalTestBuilder.java:615-619 | a special name followed by another name is rejected, naming the special one |
| UnitTestBuilder.CommaOnlySelectorAccepted | src/main/java/com/compuware/jenkins/totaltest/TotalTestBuilder.java:601-630 | "," passes, because split returns no names to check |
| UnitTestBuilder.DoCheckHostPort | src/main/java/com/compuware/jenkins/totaltest/TotalTestBuilder.java:537-572 | the form check passes iff validateHostPort accepts the value, and a failure carries a real error |
| UnitTestBuilder.DoCheckHlq | src/main/java/com/compuware/jenkins/totaltest/TotalTestBuilder.java:659-683 | on the trimmed, upper-cased value: passes iff it is empty, or is 2 to 7 characters matching the dataset HLQ pattern (a letter, # @ or $, then word characters, # @ $ or -); the spaces error iff it is shorter than 8 and has a space |
| UnitTestBuilder.HlqOutcome | src/main/java/com/compuware/jenkins/totaltest/TotalTestBuilder.java:82 | the same verdict stated on an already-normalised value |
| UnitTestBuilder.DoCheckCcRepo | src/main/java/com/compuware/jenkins/totaltest/TotalTestBuilder.java:693-706 | passes iff the trimmed value is at most 44 characters and has no space |
| UnitTestBuilder.DoCheckCcSystem | src/main/java/com/compuware/jenkins/totaltest/TotalTestBuilder.java:716-725 | passes iff the trimmed value is at most 16 characters |
| UnitTestBuilder.DoCheckCcTestId | src/main/java/com/compuware/jenkins/totaltest/TotalTestBuilder.java:735-744 | passes iff the trimmed value is at most 16 characters |
| UnitTestBuilder.DoCheckCredentialsId | src/main/java/com/compuware/jenkins/totaltest/TotalTestBuilder.java:753-761 | passes iff a credentials id was chosen |
| UnitTestBuilder.ValidateParameters | src/main/java/com/compuware/jenkins/totaltest/TotalTestBuilder.java:442-506 | passes iff the credentials exist, the project folder and the JCL are set, and the selector is valid; each error is tied to its case, checked in the order credentials, project folder, test suite, JCL; the null-HLQ error never arises |
| UnitTestBuilder.ValidateParametersAsWritten | src/main/java/com/compuware/jenkins/totaltest/TotalTestBuilder.java:442-506 | the same error order as written: a lone special test name returns before the JCL is checked, and an unset HLQ on an otherwise valid configuration gives the null-dereference error |
| UnitTestBuilder.ValidateParametersAgree | src/main/java/com/compuware/jenkins/totaltest/TotalTestBuilder.java:442-506 | on every input where the code as written neither dereferences a null HLQ nor returns early, it agrees with the corrected validation |
| UnitTestBuilder.NullHlqRejectedAsWritten | src/main/java/com/compuware/jenkins/totaltest/TotalTestBuilder.java:502 | an otherwise valid configuration with no HLQ is rejected by the code as written |
| UnitTestBuilder.SentinelSkipsJclAsWritten | src/main/java/com/compuware/jenkins/totaltest/TotalTestBuilder.java:464-469 | with a sentinel selector the code as written accepts an empty JCL |
| UnitTestRunner.ArgumentTokenText | src/main/java/com/compuware/jenkins/totaltest/TotalTestRunner.java:494-516 | a token is the escaped name=value text, with "null" for an absent value, and carries the mask it was given |
| UnitTestRunner.PlainArgumentToken | src/main/java/com/compuware/jenkins/totaltest/TotalTestRunner.java:513-516 | without quotes the token is literally name=value |
| UnitTestRunner.ResolveHost | src/main/java/com/compuware/jenkins/totaltest/TotalTestRunner.java:261-304 | fails iff there is no connection and the legacy host:port is null or does not split into two parts, with the matching error; a connection supplies host and port, a code page defaulted to 1047 and a protocol defaulted to None; the legacy value gets 1047 and no protocol |
| UnitTestRunner.LegacyHostShape | src/main/java/com/compuware/jenkins/totaltest/TotalTestRunner.java:293-304 | a legacy value that resolves is host ':' port with colon-free parts and only trailing colons |
| UnitTestRunner.LegacyHostShapeAccepted | src/main/java/com/compuware/jenkins/totaltest/TotalTestRunner.java:293-304 | every such value resolves to that host and port |
| UnitTestRunner.RunArgumentsOutcome | src/main/java/com/compuware/jenkins/totaltest/TotalTestRunner.java:109-153 | the command line fails iff the host or the project folder cannot be resolved, with that error; otherwise it is the full command line |
| UnitTestRunner.CommandLineOrder | src/main/java/com/compuware/jenkins/totaltest/TotalTestRunner.java:125-152 | the script path, -command=runtest and -jenkins come first, then host, project, execution, coverage and external-tool sections, then -data and the CLI workspace |
| UnitTestRunner.LeadingAndTrailingText | src/main/java/com/compuware/jenkins/totaltest/TotalTestRunner.java:125-146 | the exact leading three tokens and the trailing -data pair |
| UnitTestRunner.ConnectionTokensText | src/main/java/com/compuware/jenkins/totaltest/TotalTestRunner.java:306-309 | -host, -port, -targetencoding and -encryptprotocol are emitted in that order |
| UnitTestRunner.LoginTokensText | src/main/java/com/compuware/jenkins/totaltest/TotalTestRunner.java:310-311 | -user carries the user name unmasked, -pw the password masked |
| UnitTestRunner.ProjectTokensText | src/main/java/com/compuware/jenkins/totaltest/TotalTestRunner.java:372-384 | -project, the selector and -jcl are emitted in that order |
| UnitTestRunner.HostTokensMasked | src/main/java/com/compuware/jenkins/totaltest/TotalTestRunner.java:306-311 | the host section has six tokens and only the password is masked |
| UnitTestRunner.OtherTokensUnmasked | src/main/java/com/compuware/jenkins/totaltest/TotalTestRunner.java:109-153 | no other section masks anything |
| UnitTestRunner.OnlyPasswordMasked | src/main/java/com/compuware/jenkins/totaltest/TotalTestRunner.java:109-153 | in the whole command line the password token, ninth, is the one masked token |
| UnitTestRunner.LegacyHostTokens | src/main/java/com/compuware/jenkins/totaltest/TotalTestRunner.java:293-309 | with a legacy host:port the encoding is 1047 and the protocol is written as "null" |
| UnitTestRunner.ConnectionDefaultTokens | src/main/java/com/compuware/jenkins/totaltest/TotalTestRunner.java:277-291 | with a connection an empty code page is sent as 1047 and an empty protocol as None |
| UnitTestRunner.SelectorRouting | src/main/java/com/compuware/jenkins/totaltest/TotalTestRunner.java:374-382 | a special name or a name list goes to -testsuitelist, anything else to -ts |
| UnitTestRunner.CoverageTokensShape | src/main/java/com/compuware/jenkins/totaltest/TotalTestRunner.java:404-428 | nothing without a repository; otherwise the upper-cased repository, an upper-cased system and test id when non-empty, then the program type and the clear-stats flag |
| UnitTestRunner.ExecutionTokensShape | src/main/java/com/compuware/jenkins/totaltest/TotalTestRunner.java:445-456 | an upper-cased -dsnhlq when set, then -usestubs and -deletetemp as true/false |
| UnitTestRunner.TotalTestRunner.constructor | src/main/java/com/compuware/jenkins/totaltest/TotalTestRunner.java:85-88 | the runner keeps its builder |
| UnitTestRunner.TotalTestRunner.AddArgument | src/main/java/com/compuware/jenkins/totaltest/TotalTestRunner.java:494-516 | appends exactly one escaped name=value token with the given mask |
| UnitTestRunner.TotalTestRunner.ResolveHostArguments | src/main/java/com/compuware/jenkins/totaltest/TotalTestRunner.java:261-304 | the host settings or the error ResolveHost specifies for the builder's connection |
| UnitTestRunner.TotalTestRunner.AddHostArguments | src/main/java/com/compuware/jenkins/totaltest/TotalTestRunner.java:259-312 | appends the host section, or reports the host or login error, as specified |
| UnitTestRunner.TotalTestRunner.AddProjectArguments | src/main/java/com/compuware/jenkins/totaltest/TotalTestRunner.java:332-385 | appends the project section when the folder is an existing directory, absolute or workspace-relative, and otherwise reports it missing |
| UnitTestRunner.TotalTestRunner.AddCodeCoverageArguments | src/main/java/com/compuware/jenkins/totaltest/TotalTestRunner.java:404-428 | appends exactly the coverage section |
| UnitTestRunner.TotalTestRunner.AddUpperCaseArgument | src/main/java/com/compuware/jenkins/totaltest/TotalTestRunner.java:411-421 | appends the upper-cased argument only when the value is present and non-empty |
| UnitTestRunner.TotalTestRunner.AddExecutionArguments | src/main/java/com/compuware/jenkins/totaltest/TotalTestRunner.java:445-456 | appends exactly the execution section |
| UnitTestRunner.TotalTestRunner.AddExternalToolArguments | src/main/java/com/compuware/jenkins/totaltest/TotalTestRunner.java:474-478 | appends the external tools workspace and the copyjunit,copysonar post-run commands |
| UnitTestRunner.TotalTestRunner.AddStepArguments | src/main/java/com/compuware/jenkins/totaltest/TotalTestRunner.java:138-142 | appends the execution, coverage and external-tool sections in that order |
| UnitTestRunner.TotalTestRunner.Run | src/main/java/com/compuware/jenkins/totaltest/TotalTestRunner.java:109-153 | the run fails iff the command line cannot be built, with that error; otherwise it launches exactly the specified command line and succeeds iff the exit value is 0 |
| FunctionalTestBuilder.ValueOrDefault | src/main/java/com/compuware/jenkins/totaltest/TotalTestCTBuilder.java:233-236 | a null or empty value yields the default, any other value itself |
| FunctionalTestBuilder.ValueOrDefaultIdempotent | src/main/java/com/compuware/jenkins/totaltest/TotalTestCTBuilder.java:233-236 | defaulting an already defaulted value changes nothing |
| FunctionalTestBuilder.NormalizedSelectPrograms | src/main/java/com/compuware/jenkins/totaltest/TotalTestCTBuilder.java:614-621 | after normalising, the selection is never null or empty, and a set selection is kept |
| FunctionalTestBuilder.NormalizedSelectProgramsIdempotent | src/main/java/com/compuware/jenkins/totaltest/TotalTestCTBuilder.java:614-621 | normalising twice is normalising once |
| FunctionalTestBuilder.SelectProgramsOptions | src/main/java/com/compuware/jenkins/totaltest/TotalTestCTBuilder.java:614-631 | JSON is selected iff the value is unset or -pnf, the list iff it is -pn, and never both |
| FunctionalTestBuilder.SelectedPrograms | src/main/java/com/compuware/jenkins/totaltest/TotalTestCTBuilder.java:593-607 | -pnf iff the selection is unset or -pnf, and -pn for any other value |
| FunctionalTestBuilder.SelectProgramsRadio | src/main/java/com/compuware/jenkins/totaltest/TotalTestCTBuilder.java:875-892 | null when the select-programs option is on; otherwise -pnf or -pn for those selections, and null for any other |
| FunctionalTestBuilder.RadioAgreesWithSelectedPrograms | src/main/java/com/compuware/jenkins/totaltest/TotalTestCTBuilder.java:875-892 | a radio value, when there is one, is the selection getSelectPrograms reports |
| FunctionalTestBuilder.DoCheckCcThreshold | src/main/java/com/compuware/jenkins/totaltest/TotalTestCTBuilder.java:1112-1134 | passes iff the value parses as an int between 0 and 100; blank always fails |
| FunctionalTestBuilder.DecimalThresholdAccepted | src/main/java/com/compuware/jenkins/totaltest/TotalTestCTBuilder.java:1112-1134 | every numeral from 0 to 100 passes |
| FunctionalTestBuilder.LargeThresholdRejected | src/main/java/com/compuware/jenkins/totaltest/TotalTestCTBuilder.java:1112-1134 | every numeral above 100 is rejected |
| FunctionalTestBuilder.DoCheckAccountInfo | src/main/java/com/compuware/jenkins/totaltest/TotalTestCTBuilder.java:1232-1242 | fails iff the value is non-blank and longer than 52 characters |
| FunctionalTestBuilder.CheckAccountInfo | src/main/java/com/compuware/jenkins/totaltest/TotalTestCTBuilder.java:1012-1015 | passes iff the account information is present and at most 52 characters |
| FunctionalTestBuilder.AccountInfoChecksAgree | src/main/java/com/compuware/jenkins/totaltest/TotalTestCTBuilder.java:1012-1015 | the form check and the build-time check agree on non-blank values |
| FunctionalTestBuilder.BlankAccountInfoChecksDiffer | src/main/java/com/compuware/jenkins/totaltest/TotalTestCTBuilder.java:1232-1242 | 53 blanks pass the form check but fail at build time |
| FunctionalTestBuilder.ValidateParameters | src/main/java/com/compuware/jenkins/totaltest/TotalTestCTBuilder.java:972-1018 | passes iff environment id, server URL and credentials id are set, the credentials exist and the account information fits; each error is tied to its cause |
| FunctionalTestBuilder.TotalTestCTBuilder.constructor | src/main/java/com/compuware/jenkins/totaltest/TotalTestCTBuilder.java:139-146 | the four arguments are stored as given and every other field takes its declared default |
| FunctionalTestBuilder.TotalTestCTBuilder.GetSonarVersion | src/main/java/com/compuware/jenkins/totaltest/TotalTestCTBuilder.java:233-236 | never empty: the stored version, or 6 |
| FunctionalTestBuilder.TotalTestCTBuilder.GetLogLevel | src/main/java/com/compuware/jenkins/totaltest/TotalTestCTBuilder.java:513-516 | never empty: the stored level, or INFO |
| FunctionalTestBuilder.TotalTestCTBuilder.SetLocalConfig | src/main/java/com/compuware/jenkins/totaltest/TotalTestCTBuilder.java:709-712 | local configuration is on iff it is asked for and a location is set |
| FunctionalTestBuilder.TotalTestCTBuilder.SetLocalConfigLocation | src/main/java/com/compuware/jenkins/totaltest/TotalTestCTBuilder.java:741-744 | the location is stored |
| FunctionalTestBuilder.TotalTestCTBuilder.IsSelectProgramsJson | src/main/java/com/compuware/jenkins/totaltest/TotalTestCTBuilder.java:614-621 | normalises the stored selection and reports whether JSON was selected |
| FunctionalTestBuilder.TotalTestCTBuilder.IsSelectProgramsList | src/main/java/com/compuware/jenkins/totaltest/TotalTestCTBuilder.java:628-631 | true iff the selection is -pn |
| FunctionalTestBuilder.TotalTestCTBuilder.GetSelectPrograms | src/main/java/com/compuware/jenkins/totaltest/TotalTestCTBuilder.java:593-607 | normalises the stored selection and returns the selection SelectedPrograms specifies |
| FunctionalTestBuilder.TotalTestCTBuilder.GetSelectProgramsRadioValue | src/main/java/com/compuware/jenkins/totaltest/TotalTestCTBuilder.java:875-892 | returns the radio value SelectProgramsRadio specifies and normalises the selection only when it consults it |
| FunctionalTestBuilder.TotalTestCTBuilder.GetSelectProgramsText | src/main/java/com/compuware/jenkins/totaltest/TotalTestCTBuilder.java:899-916 | the same value and effect as the radio value |
| FunctionalTestBuilder.TotalTestCTBuilder.Validate | src/main/java/com/compuware/jenkins/totaltest/TotalTestCTBuilder.java:972-1018 | a configuration that validates has environment id and server URL set and account information of at most 52 characters |
| FunctionalTestBuilder.TotalTestCTBuilder.Settings | src/main/java/com/compuware/jenkins/totaltest/TotalTestCTBuilder.java:153-276 | the Sonar version the runner sends is never empty: the stored version, or 6 when none is stored |
| FunctionalTestRunner.FirstNamed | src/main/java/com/compuware/jenkins/totaltest/TotalTestCTRunner.java:385-403 | none iff no file has the name; otherwise the path of the first file with it |
| FunctionalTestRunner.FirstNamedAppend | src/main/java/com/compuware/jenkins/totaltest/TotalTestCTRunner.java:385-403 | searching a concatenation searches the first part and only then the second |
| FunctionalTestRunner.SearchNodeFindsFirst | src/main/java/com/compuware/jenkins/totaltest/TotalTestCTRunner.java:385-403 | the recursive directory search returns the first matching file in listing order, depth first |
| FunctionalTestRunner.SearchListFindsFirst | src/main/java/com/compuware/jenkins/totaltest/TotalTestCTRunner.java:392-401 | the loop over a directory's entries returns the first match among them and their subtrees |
| FunctionalTestRunner.SearchFileFromDir | src/main/java/com/compuware/jenkins/totaltest/TotalTestCTRunner.java:385-403 | null iff the directory or the name is null or nothing below has that name; otherwise the absolute path of the first match |
| FunctionalTestRunner.SearchRoot | src/main/java/com/compuware/jenkins/totaltest/TotalTestCTRunner.java:333-346 | the working directory is the workspace, or the configured folder when it is an absolute existing directory |
| FunctionalTestRunner.RemoteFilePath | src/main/java/com/compuware/jenkins/totaltest/TotalTestCTRunner.java:330-376 | fails iff the working directory does not exist; otherwise the first file of that name below the report folder, or the report folder joined with the name |
| FunctionalTestRunner.RemoteFilePathFallback | src/main/java/com/compuware/jenkins/totaltest/TotalTestCTRunner.java:359-369 | when the search finds nothing the path is the report folder, the separator and the name |
| FunctionalTestRunner.CodeCoverageOk | src/main/java/com/compuware/jenkins/totaltest/TotalTestCTRunner.java:219-246 | no coverage element passes; an unparsable percentage raises; otherwise it passes iff the percentage reaches the threshold |
| FunctionalTestRunner.TestResult | src/main/java/com/compuware/jenkins/totaltest/TotalTestCTRunner.java:158-197 | 0 or -1, and -1 iff the result type is not SUCCESS or a positive threshold is missed by a parsable percentage |
| FunctionalTestRunner.CoverageAtThresholdPasses | src/main/java/com/compuware/jenkins/totaltest/TotalTestCTRunner.java:179-188 | a successful suite exactly at the threshold passes, one below fails |
| FunctionalTestRunner.ParseErrorsDoNotFail | src/main/java/com/compuware/jenkins/totaltest/TotalTestCTRunner.java:189-195 | unreadable XML, a missing result element or an unparsable percentage leave the result at 0 |
| FunctionalTestRunner.ZeroThresholdIgnoresCoverage | src/main/java/com/compuware/jenkins/totaltest/TotalTestCTRunner.java:179-188 | with threshold 0 the percentage does not matter |
| FunctionalTestRunner.RepositoryUrl | src/main/java/com/compuware/jenkins/totaltest/TotalTestCTRunner.java:251-257 | the URL keeps the server URL as prefix and ends in /totaltestapi/, adding a slash only when missing |
| FunctionalTestRunner.RepositoryUrlBase | src/main/java/com/compuware/jenkins/totaltest/TotalTestCTRunner.java:251-257 | the repository URL is the server URL with exactly one slash before totaltestapi/ |
| FunctionalTestRunner.FolderArgument | src/main/java/com/compuware/jenkins/totaltest/TotalTestCTRunner.java:267-270 | the folder sent is the configured one or "." (always "." when unset) |
| FunctionalTestRunner.FolderTokens | src/main/java/com/compuware/jenkins/totaltest/TotalTestCTRunner.java:267-287 | none of the folder tokens is masked |
| FunctionalTestRunner.RootFolderRule | src/main/java/com/compuware/jenkins/totaltest/TotalTestCTRunner.java:267-287 | -f and the folder always; -r and the workspace follow iff the folder is "." or not absolute |
| FunctionalTestRunner.FlagTokens | src/main/java/com/compuware/jenkins/totaltest/TotalTestCTRunner.java:289-299 | the flag appears once iff it is on |
| FunctionalTestRunner.OptionTokensShape | src/main/java/com/compuware/jenkins/totaltest/TotalTestCTRunner.java:289-313 | the options hold the on flags, -S unless the source folder is empty or COBOL, -g folder -G when a report folder is set, and end with -v and the Sonar version |
| FunctionalTestRunner.SonarVersionAlwaysSent | src/main/java/com/compuware/jenkins/totaltest/TotalTestCTRunner.java:311-313 | since getSonarVersion is never empty, -v is always sent |
| FunctionalTestRunner.LoginTokensMasked | src/main/java/com/compuware/jenkins/totaltest/TotalTestCTRunner.java:261-265 | the login section is -u user -p password with only the password masked |
| FunctionalTestRunner.FolderTokensUnmasked | src/main/java/com/compuware/jenkins/totaltest/TotalTestCTRunner.java:267-287 | the folder section masks nothing |
| FunctionalTestRunner.SwitchTokensUnmasked | src/main/java/com/compuware/jenkins/totaltest/TotalTestCTRunner.java:289-299 | the flags mask nothing |
| FunctionalTestRunner.OptionTokensUnmasked | src/main/java/com/compuware/jenkins/totaltest/TotalTestCTRunner.java:289-313 | the options mask nothing |
| FunctionalTestRunner.ServerTokensUnmasked | src/main/java/com/compuware/jenkins/totaltest/TotalTestCTRunner.java:249-262 | -e and -s, and a lone -u, mask nothing |
| FunctionalTestRunner.OnlyPasswordMasked | src/main/java/com/compuware/jenkins/totaltest/TotalTestCTRunner.java:248-315 | in the whole argument list the password, eighth token, is the one masked token; without a login nothing is masked |
| FunctionalTestRunner.NonZeroExitIgnoresResults | src/main/java/com/compuware/jenkins/totaltest/TotalTestCTRunner.java:106-130 | a non-zero exit fails the build whatever result files exist |
| FunctionalTestRunner.FailurePolicy | src/main/java/com/compuware/jenkins/totaltest/TotalTestCTRunner.java:106-130 | after a zero exit the build passes iff the suite result is 0 or stop-on-failure is off |
| FunctionalTestRunner.TotalTestCTRunner.constructor | src/main/java/com/compuware/jenkins/totaltest/TotalTestCTRunner.java:68-70 | the runner keeps its builder and has no workspace or separator yet |
| FunctionalTestRunner.TotalTestCTRunner.AddArguments | src/main/java/com/compuware/jenkins/totaltest/TotalTestCTRunner.java:248-315 | appends exactly the specified argument list, or stops after -u when there is no login |
| FunctionalTestRunner.TotalTestCTRunner.AddServerArguments | src/main/java/com/compuware/jenkins/totaltest/TotalTestCTRunner.java:249-260 | appends -e and the environment id, -s and the repository URL |
| FunctionalTestRunner.TotalTestCTRunner.AddLoginArguments | src/main/java/com/compuware/jenkins/totaltest/TotalTestCTRunner.java:261-265 | appends -u user -p password, the password masked |
| FunctionalTestRunner.TotalTestCTRunner.AddFolderArguments | src/main/java/com/compuware/jenkins/totaltest/TotalTestCTRunner.java:267-287 | appends exactly the folder section |
| FunctionalTestRunner.TotalTestCTRunner.AddFlag | src/main/java/com/compuware/jenkins/totaltest/TotalTestCTRunner.java:289-299 | appends the flag iff it is on |
| FunctionalTestRunner.TotalTestCTRunner.AddOptionArguments | src/main/java/com/compuware/jenkins/totaltest/TotalTestCTRunner.java:289-313 | appends exactly the option section |
| FunctionalTestRunner.TotalTestCTRunner.AddSourceArguments | src/main/java/com/compuware/jenkins/totaltest/TotalTestCTRunner.java:301-304 | appends -S and the source folder unless it is empty or COBOL |
| FunctionalTestRunner.TotalTestCTRunner.AddReportArguments | src/main/java/com/compuware/jenkins/totaltest/TotalTestCTRunner.java:306-309 | appends -g folder -G when a report folder is set |
| FunctionalTestRunner.TotalTestCTRunner.AddSonarArguments | src/main/java/com/compuware/jenkins/totaltest/TotalTestCTRunner.java:311-313 | appends -v and the Sonar version |
| FunctionalTestRunner.TotalTestCTRunner.GetRemoteFilePath | src/main/java/com/compuware/jenkins/totaltest/TotalTestCTRunner.java:330-376 | the path RemoteFilePath specifies for the runner's workspace and separator |
| FunctionalTestRunner.TotalTestCTRunner.Run | src/main/java/com/compuware/jenkins/totaltest/TotalTestCTRunner.java:72-131 | without a channel nothing is launched and the build fails; otherwise it records workspace and separator, launches the script with exactly the specified arguments, and returns the specified verdict |
| FunctionalTestRunner.TotalTestCTRunner.ReadVerdict | src/main/java/com/compuware/jenkins/totaltest/TotalTestCTRunner.java:106-130 | reads the result file and returns the verdict the failure policy specifies |

## Left out

- Launching processes, remote channels, file-system access and logging are left out. The exit value, the listing of directories, `exists`/`isDirectory` and `isAbsolute` are inputs of the model (`RunEnvironment`, `CTEnvironment`, `FileNode`).
- XML parsing of the suite result is left out. The result-type and percentage attributes are inputs. Whether the document parsed, and whether the element was present, are part of `SuiteResult`.
- The Jenkins credentials store is given as a list of credentials. The global host-connection configuration is given as a map from connection id to connection.
- Locating the CLI script (`getCLIScriptPath`, `getCliRemoteFilePath`, `getCliFilePath`) is left out. Its result is the `cliScriptPath` input. The CLI version checks (`getCLIVersion`, `isMinimumRelease` and the like) are also left out.
- The `isShell` flag is left out. The two-argument `escapeForScript(input, isShell)` is not part of this model. The model assumes it escapes exactly as the one-argument form does, whatever the flag.
- `isAllTestScenariosOrSuites`, called by the builder and the runner, is not part of this model. It is modelled by `isSpecicalTestName`. The CT builder's `getCcThreshhold` is modelled by the `ccThreshold` field.
- `JenkinsUtils.getLoginInformation`, used by the functional runner, is not part of this model. Its result is the `login` input.
- `perform`, the `doFill…Items` list boxes, `doCheckReportFolder`, `doCheckFolderPath`, `doCheckProjectFolder`, `doCheckJcl`, `doCheckEnvironmentId`, `doCheckServerUrl`, descriptor configuration and the migration of old configurations are left out. They are UI or Jenkins plumbing outside the command line and the verdict.
- The plain getters and setters of `TotalTestCTBuilder` that only store or return a field are not modelled as methods. The model's fields are read and assigned directly.
- `FunctionalTestRunner.TotalTestCTRunner.AddArguments` and `Run` require the environment id and the server URL to be set. In `addArguments` the server URL is dereferenced (`endsWith`, TotalTestCTRunner.java:253). The environment id is only handed to the argument list (TotalTestCTRunner.java:249), which would skip a null. Both are guaranteed by `perform`, which calls `validateParameters` first (TotalTestCTBuilder.java:940). That method dereferences both values and rejects an empty one (TotalTestCTBuilder.java:974, 984), so the runner never sees either unset.
- Case mapping is ASCII only. Digits are ASCII only, both for `parseInt` and for `StringUtils.isNumeric` in `validateHostPort` and `doCheckHostPort` (TotalTestRunnerUtils.java:176, TotalTestBuilder.java:564). The source's check uses `Character.isDigit`, so a port written in non-ASCII digits (such as Arabic-Indic digits) passes there, but `ClassifyHostPort` rejects it as non-numeric.
- UnitTestRunner.ProjectPath: the source makes the project folder absolute with `File.getAbsolutePath` before checking it and sending it (TotalTestRunner.java:341, 355). The model checks and sends the text as configured, with no path normalisation.
- FunctionalTestRunner.SearchFileFromDir: the model's `FileNode` tree is finite, so the search always ends. On a real file system, `searchFileFromDir` (TotalTestCTRunner.java:385-403) follows directory links and can recurse without end on a link cycle.
- FunctionalTestBuilder.TotalTestCTBuilder.Validate: states only what a passing configuration has. `FunctionalTestBuilder.ValidateParameters` carries the full if-and-only-if.

Where the descriptions of the plugin and the code differ, the model follows the code:

- An unparsable coverage percentage or a missing result element leaves the suite result at 0 (pass). This is because the exception is caught.
- The code-coverage section of the unit-test command line is emitted whenever the repository is non-empty.
- `setCcDB2` sets the program type to DB2 whatever its argument.

## Findings

| source | as written | input that shows it | evidently intended | confidence | as-written member | corrected member |
|---|---|---|---|---|---|---|
| src/main/java/com/compuware/jenkins/totaltest/TotalTestBuilder.java:502 | `getHlq().isEmpty()` is called on an HLQ that is null when never set | an otherwise valid configuration with no HLQ | an unset HLQ is optional and validation passes | not executed | UnitTestBuilder.NullHlqRejectedAsWritten | UnitTestBuilder.ValidateParameters |
| src/main/java/com/compuware/jenkins/totaltest/TotalTestBuilder.java:464-469 | a lone special test name returns before the JCL is checked | selector ALL_SCENARIOS with an empty JCL | the JCL is required whatever the selector | not executed | UnitTestBuilder.SentinelSkipsJclAsWritten | UnitTestBuilder.ValidateParameters |
