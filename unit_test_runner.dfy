/** The unit-test runner: turns a unit-test build step's configuration into
    the Total Test CLI command line, token by token, and judges the run by the
    CLI's exit value. */
module UnitTestRunner {
  import opened Wrappers
  import opened JavaText
  import opened TotalTestRunnerUtils
  import opened ArgumentLists
  import opened UnitTestBuilder

  const COPY_JUNIT: string := "copyjunit"
  const COPY_SONAR: string := "copysonar"
  const RUNTEST: string := "runtest"
  const TOPAZ_CLI_WORKSPACE: string := "TopazCliWkspc"
  const COMMAND: string := "-command"
  const HOST: string := "-host"
  const PORT: string := "-port"
  const USER: string := "-user"
  const PASSWORD: string := "-pw"
  const PROJECT: string := "-project"
  const TESTSUITE: string := "-ts"
  const JCL: string := "-jcl"
  const EXTERNAL_TOOLS_WS: string := "-externaltoolsws"
  const POST_RUN_COMMANDS: string := "-postruncommands"
  const TEST_NAME_LIST: string := "-testsuitelist"
  const DATA: string := "-data"
  const DSN_HLQ: string := "-dsnhlq"
  const PROTOCOL: string := "-encryptprotocol"
  const CODE_COVERAGE_REPO: string := "-ccrepo"
  const CODE_COVERAGE_SYSTEM: string := "-ccsystem"
  const CODE_COVERAGE_TESTID: string := "-cctestid"
  const CODE_COVERAGE_TYPE: string := "-cctype"
  const CODE_COVERAGE_CLEAR: string := "-ccclearstats"
  const USE_STUBS: string := "-usestubs"
  const DELETE_TEMPORARY: string := "-deletetemp"
  const TARGET_ENCODING: string := "-targetencoding"
  const DEFAULT_CODE_PAGE: string := "1047"
  const JENKINS: string := "-jenkins"
  const NO_PROTOCOL: string := "None"

  /** A host connection from the global configuration. */
  datatype HostConnection = HostConnection(host: string, port: string, codePage: Option<string>, protocol: Option<string>)

  /** What the runner finds around it: the CLI script, the workspace and the
      remote file separator, the global host connections by id, the
      credentials visible to the job, which paths are absolute and which
      exist as directories. */
  datatype RunEnvironment = RunEnvironment(
    cliScriptPath: string,
    workspace: string,
    fileSeparator: string,
    connections: map<string, HostConnection>,
    credentials: seq<Credential>,
    isAbsolute: string -> bool,
    directories: set<string>)

  /** The exceptions that stop a run before the CLI is launched. */
  datatype RunError =
    | NoHostConnection                     // neither a connection nor a legacy host:port
    | InvalidHostInformation               // the legacy host:port does not split in two
    | MissingCredential                    // the credential lookup gave null
    | ProjectFolderNotFound(path: string)  // not an existing directory

  /** The tokens one step appended before it finished or threw. */
  datatype Emission = Emission(tokens: seq<Token>, error: Option<RunError>)

  /** The token addArgument appends: `name=value`, escaped, a null value
      written as `null`. */
  function ArgumentToken(name: string, value: Option<string>, mask: bool): Token {
    (Escape(name + "=" + ConcatText(value)), mask)
  }

  /** An argument token reads back as `name=value` once its doubled quotes
      are collapsed, and is `name=value` itself when that has no quote; a
      quote-free option name stays unescaped in front. */
  lemma ArgumentTokenText(name: string, value: Option<string>, mask: bool)
    ensures var t := ArgumentToken(name, value, mask);
      IsEscaped(t.0) && Unescape(t.0) == name + "=" + ConcatText(value)
      && ('"' !in name ==> t.0 == name + "=" + Escape(ConcatText(value)))
      && ('"' !in name && '"' !in ConcatText(value) ==> t.0 == name + "=" + ConcatText(value))
  {
    var text := name + "=" + ConcatText(value);
    UnescapeEscape(text);
    EscapeIsEscaped(text);
    EscapeConcat(name + "=", ConcatText(value));
    if '"' !in name {
      EscapeWithoutQuotes(name + "=");
    }
    if '"' !in name && '"' !in ConcatText(value) {
      EscapeWithoutQuotes(ConcatText(value));
    }
  }

  // ---------------------------------------------------------------------------
  // Host arguments
  // ---------------------------------------------------------------------------

  /** Where the CLI connects and how. */
  datatype HostSettings = HostSettings(host: string, port: string, codePage: string, protocol: Option<string>)

  /** The host choice of addHostArguments: a connection wins over the legacy
      host:port; a connection's missing code page and protocol take their
      defaults; the legacy value must split on ':' into exactly two parts and
      gets the default code page and no protocol. */
  function ResolveHost(connection: Option<HostConnection>, hostPort: Option<string>): (r: Result<HostSettings, RunError>)
    ensures r.Failure? <==> connection.None? && (hostPort.None? || |Split(hostPort.value, ':')| != 2)
    ensures r.Failure? ==> r.error == (if hostPort.None? then NoHostConnection else InvalidHostInformation)
    ensures r.Success? ==> r.value.codePage != ""
    ensures connection.Some? ==>
      (r.Success? && r.value.host == connection.value.host && r.value.port == connection.value.port
       && r.value.protocol.Some? && r.value.protocol.value != "")
    ensures connection.None? && r.Success? ==> r.value.codePage == DEFAULT_CODE_PAGE && r.value.protocol.None?
  {
    match connection
    case Some(c) =>
      var codePage := if IsNullOrEmpty(c.codePage) then DEFAULT_CODE_PAGE else c.codePage.value;
      var protocol := if IsNullOrEmpty(c.protocol) then Some(NO_PROTOCOL) else c.protocol;
      Success(HostSettings(c.host, c.port, codePage, protocol))
    case None =>
      if hostPort.None? then Failure(NoHostConnection)
      else
        var hostAndPort := Split(hostPort.value, ':');
        if |hostAndPort| == 2 then Success(HostSettings(hostAndPort[0], hostAndPort[1], DEFAULT_CODE_PAGE, None))
        else Failure(InvalidHostInformation)
  }

  /** The legacy value is accepted exactly when it is a host without colons,
      a colon, a non-empty port without colons, and then only colons; the
      host and port sent are those two parts. */
  lemma LegacyHostShape(hostPort: string)
    requires ResolveHost(None, Some(hostPort)).Success?
    ensures var h := ResolveHost(None, Some(hostPort)).value;
      ':' !in h.host && ':' !in h.port && h.port != ""
      && hostPort == h.host + [':'] + h.port + Repeat(':', |Segments(hostPort, ':')| - 2)
  {
    SplitTwoShape(hostPort, ':');
  }

  lemma LegacyHostShapeAccepted(host: string, port: string, extraColons: nat)
    requires ':' !in host && ':' !in port && port != ""
    ensures ResolveHost(None, Some(host + [':'] + port + Repeat(':', extraColons)))
      == Success(HostSettings(host, port, DEFAULT_CODE_PAGE, None))
  {
    SplitTwoWithTrailing(host, port, ':', extraColons);
  }

  /** The connection the step's connection id names, if any. */
  function LookupConnection(connections: map<string, HostConnection>, connectionId: string): Option<HostConnection> {
    if connectionId in connections then Some(connections[connectionId]) else None
  }

  /** The four connection tokens: host, port, code page, protocol. */
  function ConnectionTokens(h: HostSettings): seq<Token> {
    [ArgumentToken(HOST, Some(h.host), false), ArgumentToken(PORT, Some(h.port), false),
     ArgumentToken(TARGET_ENCODING, Some(h.codePage), false), ArgumentToken(PROTOCOL, h.protocol, false)]
  }

  /** The login tokens: the user unmasked, the password masked. */
  function LoginTokens(login: Credential): seq<Token> {
    [ArgumentToken(USER, Some(login.username), false), ArgumentToken(PASSWORD, Some(login.password), true)]
  }

  /** What addHostArguments appends, and what it throws. */
  function HostEmission(settings: UnitTestSettings, env: RunEnvironment): Emission {
    var resolved := ResolveHost(LookupConnection(env.connections, settings.connectionId), settings.hostPort);
    if resolved.Failure? then Emission([], Some(resolved.error))
    else
      var login := LastWithId(env.credentials, settings.credentialsId);
      if login.None? then Emission(ConnectionTokens(resolved.value), Some(MissingCredential))
      else Emission(ConnectionTokens(resolved.value) + LoginTokens(login.value), None)
  }

  // ---------------------------------------------------------------------------
  // Project, execution, coverage and external tool arguments
  // ---------------------------------------------------------------------------

  /** The folder addProjectArguments checks: an absolute folder as given,
      a relative one under the workspace. */
  function ProjectPath(projectFolder: string, workspacePrefix: string, env: RunEnvironment): string {
    if env.isAbsolute(projectFolder) then projectFolder else workspacePrefix + projectFolder
  }

  /** The option the test selector goes to: the list option for a sentinel or
      a list, the single-suite option otherwise. */
  function SelectorOption(testSuiteEntry: string): string {
    if IsSpecialTestName(testSuiteEntry) || IsTestNameList(testSuiteEntry) then TEST_NAME_LIST else TESTSUITE
  }

  /** The project tokens: the folder, the selector under its option, the JCL. */
  function ProjectTokens(path: string, testSuite: string, jcl: string): seq<Token> {
    [ArgumentToken(PROJECT, Some(path), false),
     ArgumentToken(SelectorOption(testSuite), Some(testSuite), false),
     ArgumentToken(JCL, Some(jcl), false)]
  }

  /** What addProjectArguments appends, and what it throws. */
  function ProjectEmission(settings: UnitTestSettings, workspacePrefix: string, env: RunEnvironment): Emission {
    var path := ProjectPath(settings.projectFolder, workspacePrefix, env);
    if path !in env.directories then Emission([], Some(ProjectFolderNotFound(path)))
    else Emission(ProjectTokens(path, settings.testSuite, settings.jcl), None)
  }

  /** What addExecutionArguments appends. */
  function ExecutionTokens(settings: UnitTestSettings): seq<Token> {
    (if IsNullOrEmpty(settings.hlq) then [] else [ArgumentToken(DSN_HLQ, Some(ToUpper(settings.hlq.value)), false)])
    + [ArgumentToken(USE_STUBS, Some(BoolText(settings.useStubs)), false),
       ArgumentToken(DELETE_TEMPORARY, Some(BoolText(settings.deleteTemp)), false)]
  }

  /** An optional coverage token, upper-cased, present when the value is. */
  function OptionalUpperToken(name: string, value: Option<string>): seq<Token> {
    if IsNullOrEmpty(value) then [] else [ArgumentToken(name, Some(ToUpper(value.value)), false)]
  }

  /** What addCodeCoverageArguments appends: nothing without a repository. */
  function CoverageTokens(settings: UnitTestSettings): seq<Token> {
    if IsNullOrEmpty(settings.ccRepo) then []
    else
      [ArgumentToken(CODE_COVERAGE_REPO, Some(ToUpper(settings.ccRepo.value)), false)]
      + OptionalUpperToken(CODE_COVERAGE_SYSTEM, settings.ccSystem)
      + OptionalUpperToken(CODE_COVERAGE_TESTID, settings.ccTestId)
      + [ArgumentToken(CODE_COVERAGE_TYPE, Some(settings.ccPgmType), false)]
      + [ArgumentToken(CODE_COVERAGE_CLEAR, Some(BoolText(settings.ccClearStats)), false)]
  }

  /** What addExternalToolArguments appends. */
  function ExternalToolTokens(workspace: string): seq<Token> {
    [ArgumentToken(EXTERNAL_TOOLS_WS, Some(workspace), false),
     ArgumentToken(POST_RUN_COMMANDS, Some(COPY_JUNIT + "," + COPY_SONAR), false)]
  }

  /** The tokens run places before and after the step-specific ones. */
  function LeadingTokens(cliScriptPath: string): seq<Token> {
    [Plain(cliScriptPath), ArgumentToken(COMMAND, Some(RUNTEST), false), Plain(JENKINS)]
  }

  function TrailingTokens(env: RunEnvironment): seq<Token> {
    [Plain(DATA), Plain(env.workspace + env.fileSeparator + TOPAZ_CLI_WORKSPACE)]
  }

  /** The command line for a resolved host, a found credential and an
      existing project folder. */
  function CommandLine(h: HostSettings, login: Credential, path: string, settings: UnitTestSettings, env: RunEnvironment)
    : seq<Token>
  {
    LeadingTokens(env.cliScriptPath) + (ConnectionTokens(h) + LoginTokens(login))
    + ProjectTokens(path, settings.testSuite, settings.jcl) + ExecutionTokens(settings) + CoverageTokens(settings)
    + ExternalToolTokens(env.workspace) + TrailingTokens(env)
  }

  /** The whole command line run launches, or the exception that stops it. */
  function RunArguments(settings: UnitTestSettings, env: RunEnvironment): Result<seq<Token>, RunError> {
    var host := HostEmission(settings, env);
    var project := ProjectEmission(settings, env.workspace + env.fileSeparator, env);
    if host.error.Some? then Failure(host.error.value)
    else if project.error.Some? then Failure(project.error.value)
    else Success(LeadingTokens(env.cliScriptPath) + host.tokens + project.tokens + ExecutionTokens(settings)
                 + CoverageTokens(settings) + ExternalToolTokens(env.workspace) + TrailingTokens(env))
  }

  /** The command line is launched unless the host cannot be resolved, the
      credential cannot be found or the project folder does not exist; host
      problems are reported before the credential, and both before the
      project folder. When it is launched, it is the command line of the
      resolved host, the last credential with the configured id and the
      project folder under the workspace. */
  lemma RunArgumentsOutcome(settings: UnitTestSettings, env: RunEnvironment)
    ensures var resolved := ResolveHost(LookupConnection(env.connections, settings.connectionId), settings.hostPort);
      var login := LastWithId(env.credentials, settings.credentialsId);
      var path := ProjectPath(settings.projectFolder, env.workspace + env.fileSeparator, env);
      var r := RunArguments(settings, env);
      (r.Failure? <==> resolved.Failure? || login.None? || path !in env.directories)
      && (resolved.Failure? ==> r == Failure(resolved.error))
      && (resolved.Success? && login.None? ==> r == Failure(MissingCredential))
      && (resolved.Success? && login.Some? && path !in env.directories ==> r == Failure(ProjectFolderNotFound(path)))
      && (r.Success? ==> r.value == CommandLine(resolved.value, login.value, path, settings, env))
  {
  }

  /** A token made by addArgument with a quote-free name and value is the
      plain `name=value` text. */
  lemma PlainArgumentToken(name: string, value: string, mask: bool)
    requires '"' !in name && '"' !in value
    ensures ArgumentToken(name, Some(value), mask) == (name + "=" + value, mask)
  {
    ArgumentTokenText(name, Some(value), mask);
  }

  /** The sections of a command line come in a fixed order: it starts with
      the three leading tokens, the four connection tokens, the two login
      tokens and the three project tokens, and ends with the two trailing
      tokens; execution, coverage and external-tool tokens sit between. */
  lemma CommandLineOrder(h: HostSettings, login: Credential, path: string, settings: UnitTestSettings, env: RunEnvironment)
    ensures var t := CommandLine(h, login, path, settings, env);
      |t| >= 18
      && t[..12] == LeadingTokens(env.cliScriptPath) + (ConnectionTokens(h) + LoginTokens(login))
                    + ProjectTokens(path, settings.testSuite, settings.jcl)
      && t[|t| - 2..] == TrailingTokens(env)
  {
    var front := LeadingTokens(env.cliScriptPath) + (ConnectionTokens(h) + LoginTokens(login))
                 + ProjectTokens(path, settings.testSuite, settings.jcl);
    var execution := ExecutionTokens(settings);
    var coverage := CoverageTokens(settings);
    var external := ExternalToolTokens(env.workspace);
    var trailing := TrailingTokens(env);
    assert |front| == 12;
    PrefixOfAppend(front + execution + coverage + external, trailing, 12);
    PrefixOfAppend(front + execution + coverage, external, 12);
    PrefixOfAppend(front + execution, coverage, 12);
    PrefixOfAppend(front, execution, 12);
    assert front[..12] == front;
    SuffixOfAppend(front + execution + coverage + external, trailing);
  }

  /** The leading tokens are the script, `-command=runtest` and `-jenkins`;
      the trailing ones `-data` and the CLI workspace under the workspace. */
  lemma LeadingAndTrailingText(cliScriptPath: string, env: RunEnvironment)
    ensures var l := LeadingTokens(cliScriptPath);
      l[0] == Plain(cliScriptPath) && l[1] == Plain(COMMAND + "=" + RUNTEST) && l[2] == Plain(JENKINS)
    ensures TrailingTokens(env) == [Plain(DATA), Plain(env.workspace + env.fileSeparator + TOPAZ_CLI_WORKSPACE)]
  {
    PlainArgumentToken(COMMAND, RUNTEST, false);
  }

  /** The connection tokens send host, port, code page and protocol, each as
      `option=value`. */
  lemma ConnectionTokensText(h: HostSettings)
    ensures var c := ConnectionTokens(h);
      |c| == 4
      && Unescape(c[0].0) == HOST + "=" + h.host && Unescape(c[1].0) == PORT + "=" + h.port
      && Unescape(c[2].0) == TARGET_ENCODING + "=" + h.codePage
      && Unescape(c[3].0) == PROTOCOL + "=" + ConcatText(h.protocol)
  {
    ArgumentTokenText(HOST, Some(h.host), false);
    ArgumentTokenText(PORT, Some(h.port), false);
    ArgumentTokenText(TARGET_ENCODING, Some(h.codePage), false);
    ArgumentTokenText(PROTOCOL, h.protocol, false);
  }

  /** The login tokens send the user unmasked and the password masked. */
  lemma LoginTokensText(login: Credential)
    ensures var c := LoginTokens(login);
      |c| == 2 && !c[0].1 && c[1].1
      && Unescape(c[0].0) == USER + "=" + login.username && Unescape(c[1].0) == PASSWORD + "=" + login.password
  {
    ArgumentTokenText(USER, Some(login.username), false);
    ArgumentTokenText(PASSWORD, Some(login.password), true);
  }

  /** The project tokens send the folder, the selector under the option it is
      routed to, and the JCL. */
  lemma ProjectTokensText(path: string, testSuite: string, jcl: string)
    ensures var p := ProjectTokens(path, testSuite, jcl);
      |p| == 3
      && Unescape(p[0].0) == PROJECT + "=" + path
      && Unescape(p[1].0) == SelectorOption(testSuite) + "=" + testSuite
      && Unescape(p[2].0) == JCL + "=" + jcl
  {
    ArgumentTokenText(PROJECT, Some(path), false);
    ArgumentTokenText(SelectorOption(testSuite), Some(testSuite), false);
    ArgumentTokenText(JCL, Some(jcl), false);
  }

  /** Of the host section only the password, its sixth token, is masked. */
  lemma HostTokensMasked(h: HostSettings, login: Credential)
    ensures var g := ConnectionTokens(h) + LoginTokens(login);
      |g| == 6 && g[5].1 && MaskedCount(g) == 1
  {
    var connection := ConnectionTokens(h);
    var credential := LoginTokens(login);
    NoMaskedTokens(connection);
    NoMaskedTokens(credential[..1]);
    assert credential == credential[..1] + credential[1..];
    MaskedCountAppend(credential[..1], credential[1..]);
    MaskedCountAppend(connection, credential);
  }

  /** No token outside the host section is masked. */
  lemma OtherTokensUnmasked(path: string, settings: UnitTestSettings, env: RunEnvironment)
    ensures MaskedCount(LeadingTokens(env.cliScriptPath)) == 0
    ensures MaskedCount(ProjectTokens(path, settings.testSuite, settings.jcl)) == 0
    ensures MaskedCount(ExecutionTokens(settings)) == 0
    ensures MaskedCount(CoverageTokens(settings)) == 0
    ensures MaskedCount(ExternalToolTokens(env.workspace)) == 0
    ensures MaskedCount(TrailingTokens(env)) == 0
  {
    NoMaskedTokens(LeadingTokens(env.cliScriptPath));
    NoMaskedTokens(ProjectTokens(path, settings.testSuite, settings.jcl));
    NoMaskedTokens(ExecutionTokens(settings));
    NoMaskedTokens(CoverageTokens(settings));
    NoMaskedTokens(ExternalToolTokens(env.workspace));
    NoMaskedTokens(TrailingTokens(env));
  }

  /** The password is the only masked token of the command line, and it is
      the ninth token. */
  lemma {:induction false} OnlyPasswordMasked(h: HostSettings, login: Credential, path: string, settings: UnitTestSettings, env: RunEnvironment)
    ensures var t := CommandLine(h, login, path, settings, env);
      |t| > 8 && t[8].1 && MaskedCount(t) == 1
  {
    HostTokensMasked(h, login);
    OtherTokensUnmasked(path, settings, env);
    MaskedCountSections(LeadingTokens(env.cliScriptPath), ConnectionTokens(h) + LoginTokens(login),
      ProjectTokens(path, settings.testSuite, settings.jcl), ExecutionTokens(settings), CoverageTokens(settings),
      ExternalToolTokens(env.workspace), TrailingTokens(env), 5);
  }

  /** With the legacy host:port the code page is 1047 and the protocol is sent
      as the text `null`. */
  lemma LegacyHostTokens(hostPort: string)
    requires ResolveHost(None, Some(hostPort)).Success?
    ensures var c := ConnectionTokens(ResolveHost(None, Some(hostPort)).value);
      Unescape(c[2].0) == TARGET_ENCODING + "=" + DEFAULT_CODE_PAGE && Unescape(c[3].0) == PROTOCOL + "=null"
  {
    ConnectionTokensText(ResolveHost(None, Some(hostPort)).value);
  }

  /** A connection without a code page or protocol sends 1047 and `None`,
      whatever the legacy host:port says. */
  lemma ConnectionDefaultTokens(connection: HostConnection, hostPort: Option<string>)
    ensures var c := ConnectionTokens(ResolveHost(Some(connection), hostPort).value);
      (IsNullOrEmpty(connection.codePage) ==> Unescape(c[2].0) == TARGET_ENCODING + "=" + DEFAULT_CODE_PAGE)
      && (IsNullOrEmpty(connection.protocol) ==> Unescape(c[3].0) == PROTOCOL + "=" + NO_PROTOCOL)
  {
    ConnectionTokensText(ResolveHost(Some(connection), hostPort).value);
  }

  /** The selector goes to `-testsuitelist` exactly for a special name or a
      list, to `-ts` otherwise. */
  lemma SelectorRouting(testSuite: string)
    ensures SelectorOption(testSuite) == "-testsuitelist" <==> IsSpecialTestName(testSuite) || IsTestNameList(testSuite)
    ensures SelectorOption(testSuite) == "-ts" <==> !(IsSpecialTestName(testSuite) || IsTestNameList(testSuite))
  {
  }

  /** The coverage block is empty exactly when the repository is null or
      empty; otherwise it holds the upper-cased repository first, an
      upper-cased system and test id each only when given, and the program
      type and clear-statistics flag last. */
  lemma CoverageTokensShape(settings: UnitTestSettings)
    ensures var c := CoverageTokens(settings);
      (c == [] <==> IsNullOrEmpty(settings.ccRepo))
      && (c != [] ==>
            |c| == 3 + (if IsNullOrEmpty(settings.ccSystem) then 0 else 1) + (if IsNullOrEmpty(settings.ccTestId) then 0 else 1)
            && Unescape(c[0].0) == CODE_COVERAGE_REPO + "=" + ToUpper(settings.ccRepo.value)
            && Unescape(c[|c| - 2].0) == CODE_COVERAGE_TYPE + "=" + settings.ccPgmType
            && Unescape(c[|c| - 1].0) == CODE_COVERAGE_CLEAR + "=" + BoolText(settings.ccClearStats))
  {
    if !IsNullOrEmpty(settings.ccRepo) {
      var repo := ArgumentToken(CODE_COVERAGE_REPO, Some(ToUpper(settings.ccRepo.value)), false);
      var pgmType := ArgumentToken(CODE_COVERAGE_TYPE, Some(settings.ccPgmType), false);
      var clear := ArgumentToken(CODE_COVERAGE_CLEAR, Some(BoolText(settings.ccClearStats)), false);
      var middle := OptionalUpperToken(CODE_COVERAGE_SYSTEM, settings.ccSystem)
        + OptionalUpperToken(CODE_COVERAGE_TESTID, settings.ccTestId);
      var c := [repo] + middle + [pgmType, clear];
      assert CoverageTokens(settings) == c;
      assert c[0] == repo && c[|c| - 2] == pgmType && c[|c| - 1] == clear;
      ArgumentTokenText(CODE_COVERAGE_REPO, Some(ToUpper(settings.ccRepo.value)), false);
      ArgumentTokenText(CODE_COVERAGE_TYPE, Some(settings.ccPgmType), false);
      ArgumentTokenText(CODE_COVERAGE_CLEAR, Some(BoolText(settings.ccClearStats)), false);
    }
  }

  /** `-dsnhlq` with the upper-cased qualifier comes first exactly when the
      qualifier is non-empty; `-usestubs` and `-deletetemp` always follow. */
  lemma ExecutionTokensShape(settings: UnitTestSettings)
    ensures var e := ExecutionTokens(settings);
      |e| == (if IsNullOrEmpty(settings.hlq) then 2 else 3)
      && (!IsNullOrEmpty(settings.hlq) ==> Unescape(e[0].0) == DSN_HLQ + "=" + ToUpper(settings.hlq.value))
      && Unescape(e[|e| - 2].0) == USE_STUBS + "=" + BoolText(settings.useStubs)
      && Unescape(e[|e| - 1].0) == DELETE_TEMPORARY + "=" + BoolText(settings.deleteTemp)
  {
    if !IsNullOrEmpty(settings.hlq) {
      ArgumentTokenText(DSN_HLQ, Some(ToUpper(settings.hlq.value)), false);
    }
    ArgumentTokenText(USE_STUBS, Some(BoolText(settings.useStubs)), false);
    ArgumentTokenText(DELETE_TEMPORARY, Some(BoolText(settings.deleteTemp)), false);
  }

  // ---------------------------------------------------------------------------
  // The runner
  // ---------------------------------------------------------------------------

  class TotalTestRunner {
    const tttBuilder: TotalTestBuilder

    constructor (tttBuilder: TotalTestBuilder)
      ensures this.tttBuilder == tttBuilder
    {
      this.tttBuilder := tttBuilder;
    }

    /** addArgument: one escaped `name=value` token. */
    method AddArgument(args: ArgumentListBuilder, argument: string, argumentValue: Option<string>, mask: bool)
      modifies args
      ensures args.tokens == old(args.tokens) + [ArgumentToken(argument, argumentValue, mask)]
    {
      var escaped := EscapeForScript(Some(argument + "=" + ConcatText(argumentValue)));
      assert escaped.value == Escape(argument + "=" + ConcatText(argumentValue));
      args.AddMasked(escaped.value, mask);
    }

    /** The host part of addHostArguments: the connection named by the
        connection id, else the legacy host:port split on ':'. */
    method ResolveHostArguments(env: RunEnvironment) returns (resolved: Result<HostSettings, RunError>)
      ensures resolved == ResolveHost(LookupConnection(env.connections, tttBuilder.connectionId), tttBuilder.hostPort)
    {
      var connection := LookupConnection(env.connections, tttBuilder.connectionId);
      var legacy := tttBuilder.hostPort;
      if connection.None? && legacy.None? {
        return Failure(NoHostConnection);
      } else if connection.Some? {
        var codePage := if connection.value.codePage.None? then "" else connection.value.codePage.value;
        var protocol := connection.value.protocol;
        if codePage == "" {
          codePage := DEFAULT_CODE_PAGE;
        }
        if IsNullOrEmpty(protocol) {
          protocol := Some(NO_PROTOCOL);
        }
        resolved := Success(HostSettings(connection.value.host, connection.value.port, codePage, protocol));
      } else {
        var hostAndPort := Split(legacy.value, ':');
        if |hostAndPort| == 2 {
          resolved := Success(HostSettings(hostAndPort[0], hostAndPort[1], DEFAULT_CODE_PAGE, None));
        } else {
          resolved := Failure(InvalidHostInformation);
        }
      }
    }

    /** addHostArguments. */
    method AddHostArguments(args: ArgumentListBuilder, env: RunEnvironment) returns (error: Option<RunError>)
      modifies args
      ensures args.tokens == old(args.tokens) + HostEmission(tttBuilder.Settings(), env).tokens
      ensures error == HostEmission(tttBuilder.Settings(), env).error
    {
      var resolved := ResolveHostArguments(env);
      if resolved.Failure? {
        return Some(resolved.error);
      }
      var h := resolved.value;
      AddArgument(args, HOST, Some(h.host), false);
      AddArgument(args, PORT, Some(h.port), false);
      AddArgument(args, TARGET_ENCODING, Some(h.codePage), false);
      AddArgument(args, PROTOCOL, h.protocol, false);
      AppendFour(old(args.tokens), ArgumentToken(HOST, Some(h.host), false), ArgumentToken(PORT, Some(h.port), false),
                 ArgumentToken(TARGET_ENCODING, Some(h.codePage), false), ArgumentToken(PROTOCOL, h.protocol, false));
      var login := GetLoginInformation(env.credentials, tttBuilder.credentialsId);
      if login.None? {
        return Some(MissingCredential);
      }
      AddArgument(args, USER, Some(login.value.username), false);
      AddArgument(args, PASSWORD, Some(login.value.password), true);
      AppendTwo(old(args.tokens) + ConnectionTokens(h), ArgumentToken(USER, Some(login.value.username), false),
                ArgumentToken(PASSWORD, Some(login.value.password), true));
      AppendAssociates(old(args.tokens), ConnectionTokens(h), LoginTokens(login.value));
      error := None;
    }

    /** addProjectArguments. */
    method AddProjectArguments(args: ArgumentListBuilder, workspacePrefix: string, env: RunEnvironment)
      returns (error: Option<RunError>)
      modifies args
      ensures args.tokens == old(args.tokens) + ProjectEmission(tttBuilder.Settings(), workspacePrefix, env).tokens
      ensures error == ProjectEmission(tttBuilder.Settings(), workspacePrefix, env).error
    {
      var projectPath: string;
      var projectFolder := tttBuilder.projectFolder;
      if env.isAbsolute(projectFolder) {
        if projectFolder in env.directories {
          projectPath := projectFolder;
        } else {
          return Some(ProjectFolderNotFound(projectFolder));
        }
      } else {
        var workspaceProjectPath := workspacePrefix + projectFolder;
        if workspaceProjectPath in env.directories {
          projectPath := workspaceProjectPath;
        } else {
          return Some(ProjectFolderNotFound(workspaceProjectPath));
        }
      }
      AddArgument(args, PROJECT, Some(projectPath), false);
      var testSuiteEntry := tttBuilder.testSuite;
      if IsSpecialTestName(testSuiteEntry) || IsTestNameList(testSuiteEntry) {
        AddArgument(args, TEST_NAME_LIST, Some(testSuiteEntry), false);
      } else {
        AddArgument(args, TESTSUITE, Some(testSuiteEntry), false);
      }
      AddArgument(args, JCL, Some(tttBuilder.jcl), false);
      AppendThree(old(args.tokens), ArgumentToken(PROJECT, Some(projectPath), false),
                  ArgumentToken(SelectorOption(testSuiteEntry), Some(testSuiteEntry), false),
                  ArgumentToken(JCL, Some(tttBuilder.jcl), false));
      error := None;
    }

    /** addCodeCoverageArguments. */
    method AddCodeCoverageArguments(args: ArgumentListBuilder)
      modifies args
      ensures args.tokens == old(args.tokens) + CoverageTokens(tttBuilder.Settings())
    {
      var ccRepo := tttBuilder.ccRepo;
      if ccRepo.Some? && |ccRepo.value| != 0 {
        AddArgument(args, CODE_COVERAGE_REPO, Some(ToUpper(ccRepo.value)), false);
        AddUpperCaseArgument(args, CODE_COVERAGE_SYSTEM, tttBuilder.ccSystem);
        AddUpperCaseArgument(args, CODE_COVERAGE_TESTID, tttBuilder.ccTestId);
        AddArgument(args, CODE_COVERAGE_TYPE, Some(tttBuilder.GetCcPgmType()), false);
        AddArgument(args, CODE_COVERAGE_CLEAR, Some(BoolText(tttBuilder.ccClearStats)), false);
        AppendFiveAssociates(old(args.tokens), [ArgumentToken(CODE_COVERAGE_REPO, Some(ToUpper(ccRepo.value)), false)],
          OptionalUpperToken(CODE_COVERAGE_SYSTEM, tttBuilder.ccSystem),
          OptionalUpperToken(CODE_COVERAGE_TESTID, tttBuilder.ccTestId),
          [ArgumentToken(CODE_COVERAGE_TYPE, Some(tttBuilder.GetCcPgmType()), false)],
          [ArgumentToken(CODE_COVERAGE_CLEAR, Some(BoolText(tttBuilder.ccClearStats)), false)]);
      }
    }

    /** One coverage argument whose value is upper-cased and sent only when
        it is present and non-empty. */
    method AddUpperCaseArgument(args: ArgumentListBuilder, name: string, value: Option<string>)
      modifies args
      ensures args.tokens == old(args.tokens) + OptionalUpperToken(name, value)
    {
      var upper := if value.Some? then Some(ToUpper(value.value)) else None;
      if upper.Some? && |upper.value| != 0 {
        AddArgument(args, name, upper, false);
      }
    }

    /** addExecutionArguments. */
    method AddExecutionArguments(args: ArgumentListBuilder)
      modifies args
      ensures args.tokens == old(args.tokens) + ExecutionTokens(tttBuilder.Settings())
    {
      ghost var flags := [ArgumentToken(USE_STUBS, Some(BoolText(tttBuilder.useStubs)), false),
                          ArgumentToken(DELETE_TEMPORARY, Some(BoolText(tttBuilder.deleteTemp)), false)];
      ghost var start := old(args.tokens);
      var dsnhlq := tttBuilder.datasetHLQ;
      if dsnhlq.Some? && |dsnhlq.value| != 0 {
        AddArgument(args, DSN_HLQ, Some(ToUpper(dsnhlq.value)), false);
        start := start + [ArgumentToken(DSN_HLQ, Some(ToUpper(dsnhlq.value)), false)];
        AppendAssociates(old(args.tokens), [ArgumentToken(DSN_HLQ, Some(ToUpper(dsnhlq.value)), false)], flags);
      } else {
        assert [] + flags == flags;
      }
      AddArgument(args, USE_STUBS, Some(BoolText(tttBuilder.useStubs)), false);
      AddArgument(args, DELETE_TEMPORARY, Some(BoolText(tttBuilder.deleteTemp)), false);
      AppendTwo(start, flags[0], flags[1]);
    }

    /** addExternalToolArguments. */
    method AddExternalToolArguments(args: ArgumentListBuilder, workspace: string)
      modifies args
      ensures args.tokens == old(args.tokens) + ExternalToolTokens(workspace)
    {
      AddArgument(args, EXTERNAL_TOOLS_WS, Some(workspace), false);
      AddArgument(args, POST_RUN_COMMANDS, Some(COPY_JUNIT + "," + COPY_SONAR), false);
      AppendTwo(old(args.tokens), ArgumentToken(EXTERNAL_TOOLS_WS, Some(workspace), false),
                ArgumentToken(POST_RUN_COMMANDS, Some(COPY_JUNIT + "," + COPY_SONAR), false));
    }

    /** The step-specific tokens run adds once the host and project are in
        place: execution, coverage and external-tool arguments. */
    method AddStepArguments(args: ArgumentListBuilder, workspace: string)
      modifies args
      ensures args.tokens == old(args.tokens) + ExecutionTokens(tttBuilder.Settings())
        + CoverageTokens(tttBuilder.Settings()) + ExternalToolTokens(workspace)
    {
      AddExecutionArguments(args);
      AddCodeCoverageArguments(args);
      AddExternalToolArguments(args, workspace);
    }

    /** run: builds the command line in order; an exception stops the run
      before the CLI is launched; otherwise the run succeeds iff the CLI
      exits with 0. */
    method Run(env: RunEnvironment, exitValue: int) returns (r: Result<bool, RunError>, args: ArgumentListBuilder)
      ensures fresh(args)
      ensures r.Failure? <==> RunArguments(tttBuilder.Settings(), env).Failure?
      ensures r.Failure? ==> r.error == RunArguments(tttBuilder.Settings(), env).error
      ensures r.Success? ==>
        (args.tokens == RunArguments(tttBuilder.Settings(), env).value && r.value == (exitValue == 0))
    {
      ghost var settings := tttBuilder.Settings();
      var topazCliWorkspace := env.workspace + env.fileSeparator + TOPAZ_CLI_WORKSPACE;
      assert [Plain(DATA)] + [Plain(topazCliWorkspace)] == TrailingTokens(env);
      args := new ArgumentListBuilder();
      args.Add(env.cliScriptPath);
      AddArgument(args, COMMAND, Some(RUNTEST), false);
      args.Add(JENKINS);
      assert args.tokens == LeadingTokens(env.cliScriptPath);
      var error := AddHostArguments(args, env);
      if error.Some? {
        return Failure(error.value), args;
      }
      error := AddProjectArguments(args, env.workspace + env.fileSeparator, env);
      if error.Some? {
        return Failure(error.value), args;
      }
      assert args.tokens == LeadingTokens(env.cliScriptPath) + HostEmission(settings, env).tokens
        + ProjectEmission(settings, env.workspace + env.fileSeparator, env).tokens;
      AddStepArguments(args, env.workspace);
      ghost var before := args.tokens;
      args.Add(DATA);
      args.Add(topazCliWorkspace);
      AppendAssociates(before, [Plain(DATA)], [Plain(topazCliWorkspace)]);
      r := Success(exitValue == 0);
    }
  }
}
