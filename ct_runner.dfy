/** The functional-test runner (TotalTestCTRunner): the command line it hands
    to the Total Test Testing CLI, the search for a file under the result
    folder, the verdict it reads from the suite result, and how the CLI's exit
    value, the verdict and the "stop if tests fail" switch decide the build. */
module FunctionalTestRunner {
  import opened Wrappers
  import opened JavaText
  import opened TotalTestRunnerUtils
  import opened ArgumentLists
  import opened FunctionalTestBuilder

  const TOTAL_TEST_WEBAPP: string := "totaltestapi"
  const SUITE_RESULT_FILE: string := "generated.cli.xasuiteres"
  const SUCCESS: string := "SUCCESS"
  const COBOL: string := "COBOL"
  const CURRENT_FOLDER: string := "."
  const SLASH: string := "/"
  const ENVIRONMENT: string := "-e"
  const SERVER: string := "-s"
  const USER: string := "-u"
  const PASSWORD: string := "-p"
  const FOLDER: string := "-f"
  const ROOT: string := "-r"
  const RECURSIVE: string := "-R"
  const UPLOAD: string := "-x"
  const HALT: string := "-h"
  const SOURCE: string := "-S"
  const REPORT: string := "-g"
  const GENERATE_REPORT: string := "-G"
  const SONAR: string := "-v"

  // ---------------------------------------------------------------------------
  // The remote file system
  // ---------------------------------------------------------------------------

  /** What java.io.File says about a path: a directory, with its listing
      unless listing it fails, or anything else, with its last name
      component and its absolute path. */
  datatype FileNode =
    | Directory(listed: bool, children: seq<FileNode>)
    | File(name: string, absolutePath: string)

  /** A parsed suite result: the `resultType` attribute of `/XaSuiteResult`
      (absent when there is no such element) and the `percentage` attribute
      of `/XaSuiteResult/CC/data` (absent when there is no such element, empty
      when the element lacks the attribute); or a document the XML parser
      rejects. */
  datatype SuiteResult =
    | Unparseable
    | Parsed(resultType: Option<string>, percentage: Option<string>)

  /** What the runner finds around it: whether the launcher has a channel,
      the CLI script, the workspace and the remote file separator, which
      paths are absolute and which are existing directories, what is found at
      a path, the login for the step's credential id, and the readable result
      files by path. */
  datatype CTEnvironment = CTEnvironment(
    hasChannel: bool,
    cliScriptPath: string,
    workspace: string,
    fileSeparator: string,
    isAbsolute: string -> bool,
    directories: set<string>,
    entryAt: string -> FileNode,
    login: Option<Credential>,
    resultFiles: map<string, SuiteResult>)

  /** The exceptions that end a run. */
  datatype CTRunError =
    | MissingLogin                          // the credential lookup gave null
    | WorkDirNotFound(path: string)         // the folder to search does not exist
    | ResultFileUnreadable(path: string)    // the suite result cannot be read

  // ---------------------------------------------------------------------------
  // searchFileFromDir
  // ---------------------------------------------------------------------------

  /** The walk of searchFileFromDir from one entry: a file answers when its
      name is the one searched for; a directory asks its listing in order and
      stops at the first answer. */
  function SearchNode(node: FileNode, search: string): Option<string>
    decreases node, 1
  {
    match node
    case File(name, absolutePath) => if search == name then Some(absolutePath) else None
    case Directory(listed, children) => if listed then SearchList(node, children, search) else None
  }

  /** The loop over a directory listing. */
  function SearchList(ghost parent: FileNode, children: seq<FileNode>, search: string): Option<string>
    requires forall i | 0 <= i < |children| :: children[i] < parent
    decreases parent, 0, |children|
  {
    if |children| == 0 then None
    else
      var found := SearchNode(children[0], search);
      if found.Some? then found else SearchList(parent, children[1..], search)
  }

  /** The names and absolute paths of the files under `node`, in the order a
      depth-first walk of the listings meets them. */
  function FilesUnder(node: FileNode): seq<(string, string)>
    decreases node, 1
  {
    match node
    case File(name, absolutePath) => [(name, absolutePath)]
    case Directory(listed, children) => if listed then FilesUnderList(node, children) else []
  }

  function FilesUnderList(ghost parent: FileNode, children: seq<FileNode>): seq<(string, string)>
    requires forall i | 0 <= i < |children| :: children[i] < parent
    decreases parent, 0, |children|
  {
    if |children| == 0 then [] else FilesUnder(children[0]) + FilesUnderList(parent, children[1..])
  }

  /** The path of the first file named `search`. */
  function FirstNamed(files: seq<(string, string)>, search: string): (r: Option<string>)
    ensures r.None? <==> forall i :: 0 <= i < |files| ==> files[i].0 != search
    ensures r.Some? ==>
      exists i :: 0 <= i < |files| && files[i] == (search, r.value) && forall j :: 0 <= j < i ==> files[j].0 != search
  {
    if |files| == 0 then None
    else if files[0].0 == search then Some(files[0].1)
    else
      var r := FirstNamed(files[1..], search);
      assert forall i :: 1 <= i < |files| ==> files[i] == files[1..][i - 1];
      r
  }

  lemma {:induction false} FirstNamedAppend(a: seq<(string, string)>, b: seq<(string, string)>, search: string)
    ensures FirstNamed(a + b, search) == (if FirstNamed(a, search).Some? then FirstNamed(a, search) else FirstNamed(b, search))
    decreases |a|
  {
    if |a| > 0 {
      assert (a + b)[1..] == a[1..] + b;
      FirstNamedAppend(a[1..], b, search);
    } else {
      assert a + b == b;
    }
  }

  /** The search answers with the first file of that name in depth-first
      order. */
  lemma {:induction false} SearchNodeFindsFirst(node: FileNode, search: string)
    ensures SearchNode(node, search) == FirstNamed(FilesUnder(node), search)
    decreases node, 1
  {
    match node
    case File(_, _) =>
    case Directory(listed, children) =>
      if listed {
        SearchListFindsFirst(node, children, search);
      }
  }

  lemma {:induction false} SearchListFindsFirst(parent: FileNode, children: seq<FileNode>, search: string)
    requires forall i | 0 <= i < |children| :: children[i] < parent
    ensures SearchList(parent, children, search) == FirstNamed(FilesUnderList(parent, children), search)
    decreases parent, 0, |children|
  {
    if |children| > 0 {
      SearchNodeFindsFirst(children[0], search);
      SearchListFindsFirst(parent, children[1..], search);
      FirstNamedAppend(FilesUnder(children[0]), FilesUnderList(parent, children[1..]), search);
    }
  }

  /** searchFileFromDir: null when an argument is null or no file under the
      entry has the name searched for; otherwise the absolute path of the
      first such file. */
  function SearchFileFromDir(file: Option<FileNode>, search: Option<string>): (r: Option<string>)
    ensures r.None? <==> (file.None? || search.None?
      || forall i :: 0 <= i < |FilesUnder(file.value)| ==> FilesUnder(file.value)[i].0 != search.value)
    ensures r.Some? ==>
      exists i :: 0 <= i < |FilesUnder(file.value)| && FilesUnder(file.value)[i] == (search.value, r.value)
        && forall j :: 0 <= j < i ==> FilesUnder(file.value)[j].0 != search.value
  {
    if file.None? || search.None? then None
    else
      SearchNodeFindsFirst(file.value, search.value);
      SearchNode(file.value, search.value)
  }

  // ---------------------------------------------------------------------------
  // getRemoteFilePath
  // ---------------------------------------------------------------------------

  /** The directory getRemoteFilePath starts from: an absolute existing
      folder path, or else the workspace. */
  function SearchRoot(folderPath: Option<string>, workspace: string, env: CTEnvironment): (r: string)
    ensures r == workspace || (folderPath == Some(r) && env.isAbsolute(r) && r in env.directories)
  {
    if folderPath.Some? && |folderPath.value| != 0 && folderPath.value != CURRENT_FOLDER
       && env.isAbsolute(folderPath.value) && folderPath.value in env.directories
    then folderPath.value
    else workspace
  }

  /** The folder searched: the start directory, or the trimmed report folder
      when one is set, taken as it is when it is an absolute existing
      directory and below the start directory otherwise. */
  function SearchFolder(workDir: string, reportFolder: Option<string>, separator: string, env: CTEnvironment): string {
    if reportFolder.Some? && |Trim(reportFolder.value)| > 0 then
      var report := Trim(reportFolder.value);
      if env.isAbsolute(report) && report in env.directories then report else workDir + separator + report
    else workDir
  }

  /** getRemoteFilePath: the file found under the search folder, or the path
      it would have directly inside that folder; an error when the start
      directory does not exist. */
  function RemoteFilePath(folderPath: Option<string>, reportFolder: Option<string>, workspace: string, separator: string,
                          env: CTEnvironment, fileName: string): (r: Result<string, CTRunError>)
    ensures r.Failure? <==> SearchRoot(folderPath, workspace, env) !in env.directories
    ensures r.Failure? ==> r.error == WorkDirNotFound(workspace)
    ensures r.Success? ==>
      var folder := SearchFolder(SearchRoot(folderPath, workspace, env), reportFolder, separator, env);
      var found := SearchFileFromDir(Some(env.entryAt(folder)), Some(fileName));
      r.value == (if found.Some? then found.value else folder + separator + fileName)
  {
    var workDir := SearchRoot(folderPath, workspace, env);
    if workDir !in env.directories then Failure(WorkDirNotFound(workDir))
    else
      var folder := SearchFolder(workDir, reportFolder, separator, env);
      var found := SearchFileFromDir(Some(env.entryAt(folder)), Some(fileName));
      Success(if found.Some? then found.value else folder + separator + fileName)
  }

  /** When no file of that name lies under the search folder, the path is
      the folder, the separator and the name. */
  lemma RemoteFilePathFallback(folderPath: Option<string>, reportFolder: Option<string>, workspace: string,
                               separator: string, env: CTEnvironment, fileName: string)
    requires SearchRoot(folderPath, workspace, env) in env.directories
    requires var folder := SearchFolder(SearchRoot(folderPath, workspace, env), reportFolder, separator, env);
      forall i :: 0 <= i < |FilesUnder(env.entryAt(folder))| ==> FilesUnder(env.entryAt(folder))[i].0 != fileName
    ensures RemoteFilePath(folderPath, reportFolder, workspace, separator, env, fileName)
      == Success(SearchFolder(SearchRoot(folderPath, workspace, env), reportFolder, separator, env) + separator + fileName)
  {
  }

  // ---------------------------------------------------------------------------
  // The verdict
  // ---------------------------------------------------------------------------

  /** getXaSuiteCodeCoverage: with no coverage element the threshold is met;
      otherwise the percentage must parse (`None` when Integer.parseInt
      throws) and must not be below the threshold. */
  function CodeCoverageOk(percentage: Option<string>, threshold: int): (r: Option<bool>)
    ensures percentage.None? ==> r == Some(true)
    ensures r.None? <==> percentage.Some? && ParseInt(percentage.value).None?
    ensures r == Some(false) <==> (percentage.Some? && ParseInt(percentage.value).Some?
      && ParseInt(percentage.value).value < threshold)
  {
    if percentage.None? then Some(true)
    else
      var parsed := ParseInt(percentage.value);
      if parsed.None? then None else Some(!(parsed.value < threshold))
  }

  /** The verdict of readTestResult on a read result file: -1 when the
      suite did not succeed, or when it did, a positive threshold is set and
      the coverage is below it; 0 otherwise, including whenever parsing or a
      lookup throws, since the exception is caught with the verdict still 0. */
  function TestResult(suite: SuiteResult, threshold: int): (result: int)
    ensures result == 0 || result == -1
    ensures result == -1 <==> (suite.Parsed? && suite.resultType.Some?
      && (!EqualsIgnoreCase(suite.resultType.value, SUCCESS)
          || (threshold > 0 && CodeCoverageOk(suite.percentage, threshold) == Some(false))))
  {
    match suite
    case Unparseable => 0
    case Parsed(resultType, percentage) =>
      if resultType.None? then 0
      else if !EqualsIgnoreCase(resultType.value, SUCCESS) then -1
      else if threshold > 0 then
        var ok := CodeCoverageOk(percentage, threshold);
        if ok == Some(false) then -1 else 0
      else 0
  }

  /** A percentage equal to the threshold passes; one below it fails. */
  lemma CoverageAtThresholdPasses(resultType: string, percentage: nat, threshold: nat)
    requires EqualsIgnoreCase(resultType, SUCCESS) && percentage <= MAX_INT
    ensures percentage == threshold ==> TestResult(Parsed(Some(resultType), Some(DecimalText(percentage))), threshold) == 0
    ensures percentage < threshold ==> TestResult(Parsed(Some(resultType), Some(DecimalText(percentage))), threshold) == -1
  {
    ParseDecimalText(percentage);
  }

  /** A suite result that cannot be parsed, or whose coverage percentage is
      not a number, does not fail the build. */
  lemma ParseErrorsDoNotFail(resultType: Option<string>, percentage: string, threshold: int)
    requires ParseInt(percentage).None?
    ensures TestResult(Unparseable, threshold) == 0
    ensures TestResult(Parsed(None, Some(percentage)), threshold) == 0
    ensures resultType.Some? && EqualsIgnoreCase(resultType.value, SUCCESS) ==>
      TestResult(Parsed(resultType, Some(percentage)), threshold) == 0
  {
  }

  /** With no threshold set, the coverage is never consulted. */
  lemma ZeroThresholdIgnoresCoverage(resultType: Option<string>, percentage: Option<string>, other: Option<string>)
    ensures TestResult(Parsed(resultType, percentage), 0) == TestResult(Parsed(resultType, other), 0)
  {
  }

  // ---------------------------------------------------------------------------
  // addArguments
  // ---------------------------------------------------------------------------

  /** The repository URL: the server URL with a slash appended when it lacks
      one, then `totaltestapi/`. */
  function RepositoryUrl(serverUrl: string): (r: string)
    ensures EndsWith(r, SLASH + TOTAL_TEST_WEBAPP + SLASH)
    ensures |serverUrl| <= |r| && r[..|serverUrl|] == serverUrl
    ensures EndsWith(serverUrl, SLASH) ==> |r| == |serverUrl| + |TOTAL_TEST_WEBAPP| + 1
    ensures !EndsWith(serverUrl, SLASH) ==> |r| == |serverUrl| + |TOTAL_TEST_WEBAPP| + 2
  {
    var base := if EndsWith(serverUrl, SLASH) then serverUrl else serverUrl + SLASH;
    assert EndsWith(base, SLASH);
    base + TOTAL_TEST_WEBAPP + SLASH
  }

  /** Taking `totaltestapi/` off the repository URL gives the server URL
      with exactly one trailing slash added when it had none. */
  lemma RepositoryUrlBase(serverUrl: string)
    ensures var r := RepositoryUrl(serverUrl);
      var base := r[..|r| - |TOTAL_TEST_WEBAPP| - 1];
      EndsWith(base, SLASH) && base == (if EndsWith(serverUrl, SLASH) then serverUrl else serverUrl + SLASH)
  {
    var base := if EndsWith(serverUrl, SLASH) then serverUrl else serverUrl + SLASH;
    var r := base + TOTAL_TEST_WEBAPP + SLASH;
    assert r[..|r| - |TOTAL_TEST_WEBAPP| - 1] == base;
  }

  /** The folder sent with `-f`: `.` for a null, empty or blank folder path,
      the folder path otherwise. */
  function FolderArgument(folderPath: Option<string>): (folder: string)
    ensures folder == CURRENT_FOLDER || folderPath == Some(folder)
    ensures folderPath.None? ==> folder == CURRENT_FOLDER
  {
    if folderPath.None? || |folderPath.value| == 0 || |Trim(folderPath.value)| == 0 then CURRENT_FOLDER
    else folderPath.value
  }

  /** `-f` with the folder, then `-r` with the workspace unless the folder
      is an absolute path other than `.`. */
  function FolderTokens(folderPath: Option<string>, workspace: string, isAbsolute: string -> bool): (r: seq<Token>)
    ensures forall k :: 0 <= k < |r| ==> !r[k].1
  {
    var folder := FolderArgument(folderPath);
    [Plain(FOLDER), Plain(folder)]
    + (if folder != CURRENT_FOLDER && isAbsolute(folder) then [] else [Plain(ROOT), Plain(workspace)])
  }

  /** The root folder goes out exactly when the folder is `.` or relative,
      and then it is the workspace. */
  lemma RootFolderRule(folderPath: Option<string>, workspace: string, isAbsolute: string -> bool)
    ensures var f := FolderTokens(folderPath, workspace, isAbsolute);
      var folder := FolderArgument(folderPath);
      f[..2] == [Plain(FOLDER), Plain(folder)]
      && (|f| == 4 <==> folder == CURRENT_FOLDER || !isAbsolute(folder))
      && (|f| == 4 ==> f[2..] == [Plain(ROOT), Plain(workspace)])
      && (|f| != 4 ==> |f| == 2)
  {
  }

  /** A one-token flag, present when switched on. */
  function FlagTokens(on: bool, flag: string): (r: seq<Token>)
    ensures |r| == (if on then 1 else 0)
    ensures on ==> r[0] == Plain(flag)
  {
    if on then [Plain(flag)] else []
  }

  /** `-S` goes out with a source folder that is set and is not COBOL in any
      case. */
  predicate SendsSourceFolder(sourceFolder: Option<string>) {
    !IsNullOrEmpty(sourceFolder) && !EqualsIgnoreCase(sourceFolder.value, COBOL)
  }

  /** `-R`, `-x` and `-h`, as switched on. */
  function SwitchTokens(s: CTSettings): seq<Token> {
    FlagTokens(s.recursive, RECURSIVE) + FlagTokens(s.uploadToServer, UPLOAD) + FlagTokens(s.haltAtFailure, HALT)
  }

  /** `-S` with the source folder, when it is sent. */
  function SourceTokens(sourceFolder: Option<string>): seq<Token> {
    if SendsSourceFolder(sourceFolder) then [Plain(SOURCE), Plain(sourceFolder.value)] else []
  }

  /** `-g` with a report folder that is set, then `-G`. */
  function ReportTokens(reportFolder: Option<string>): seq<Token> {
    if IsNullOrEmpty(reportFolder) then [] else [Plain(REPORT), Plain(reportFolder.value), Plain(GENERATE_REPORT)]
  }

  /** `-v` with a Sonar version that is not empty. */
  function SonarTokens(sonarVersion: string): seq<Token> {
    if |sonarVersion| == 0 then [] else [Plain(SONAR), Plain(sonarVersion)]
  }

  /** The optional tokens, in the order addArguments appends them. */
  function OptionTokens(s: CTSettings): seq<Token> {
    SwitchTokens(s) + SourceTokens(s.sourceFolder) + ReportTokens(s.reportFolder) + SonarTokens(s.sonarVersion)
  }

  /** How many optional tokens there are, and that with a Sonar version the
      last two are `-v` and that version, preceded by `-G` exactly when a
      report folder is set. */
  lemma OptionTokensShape(s: CTSettings)
    ensures var o := OptionTokens(s);
      |o| == (if s.recursive then 1 else 0) + (if s.uploadToServer then 1 else 0) + (if s.haltAtFailure then 1 else 0)
        + (if SendsSourceFolder(s.sourceFolder) then 2 else 0) + (if IsNullOrEmpty(s.reportFolder) then 0 else 3)
        + (if s.sonarVersion == "" then 0 else 2)
      && (s.sonarVersion != "" ==>
            o[|o| - 2..] == [Plain(SONAR), Plain(s.sonarVersion)]
            && (!IsNullOrEmpty(s.reportFolder) ==>
                  o[|o| - 5..|o| - 2] == [Plain(REPORT), Plain(s.reportFolder.value), Plain(GENERATE_REPORT)]))
  {
    var front := SwitchTokens(s) + SourceTokens(s.sourceFolder);
    var report := ReportTokens(s.reportFolder);
    var sonar := SonarTokens(s.sonarVersion);
    var o := front + report + sonar;
    if s.sonarVersion != "" {
      assert o[|o| - 2..] == sonar;
      if !IsNullOrEmpty(s.reportFolder) {
        assert o[|o| - 5..|o| - 2] == report;
      }
    }
  }

  /** The Sonar version the step reports is never empty, so `-v` always
      goes out, with that version. */
  lemma SonarVersionAlwaysSent(builder: TotalTestCTBuilder)
    ensures var o := OptionTokens(builder.Settings());
      |o| >= 2 && o[|o| - 2..] == [Plain(SONAR), Plain(builder.GetSonarVersion())]
  {
    OptionTokensShape(builder.Settings());
  }

  /** The environment and the repository. */
  function ServerTokens(environmentId: string, serverUrl: string): seq<Token> {
    [Plain(ENVIRONMENT), Plain(environmentId), Plain(SERVER), Plain(RepositoryUrl(serverUrl))]
  }

  /** The login: the user in clear, the password masked. */
  function LoginTokens(login: Credential): seq<Token> {
    [Plain(USER), Plain(login.username), Plain(PASSWORD), (login.password, true)]
  }

  /** The tokens addArguments appended before it finished or threw. */
  datatype CTEmission = CTEmission(tokens: seq<Token>, error: Option<CTRunError>)

  /** What addArguments appends: without a login it throws right after `-u`. */
  function ArgumentEmission(s: CTSettings, env: CTEnvironment): CTEmission
    requires s.environmentId.Some? && s.serverUrl.Some?
  {
    var server := ServerTokens(s.environmentId.value, s.serverUrl.value);
    if env.login.None? then CTEmission(server + [Plain(USER)], Some(MissingLogin))
    else
      CTEmission(server + LoginTokens(env.login.value) + FolderTokens(s.folderPath, env.workspace, env.isAbsolute)
                 + OptionTokens(s), None)
  }

  lemma LoginTokensMasked(login: Credential)
    ensures |LoginTokens(login)| == 4 && LoginTokens(login)[3] == (login.password, true)
    ensures MaskedCount(LoginTokens(login)) == 1
  {
    var t := LoginTokens(login);
    NoMaskedTokens(t[..3]);
  }

  lemma FolderTokensUnmasked(folderPath: Option<string>, workspace: string, isAbsolute: string -> bool)
    ensures MaskedCount(FolderTokens(folderPath, workspace, isAbsolute)) == 0
  {
    NoMaskedTokens(FolderTokens(folderPath, workspace, isAbsolute));
  }

  lemma SwitchTokensUnmasked(s: CTSettings)
    ensures MaskedCount(SwitchTokens(s)) == 0
  {
    var r := FlagTokens(s.recursive, RECURSIVE);
    var x := FlagTokens(s.uploadToServer, UPLOAD);
    var h := FlagTokens(s.haltAtFailure, HALT);
    NoMaskedTokens(r);
    NoMaskedTokens(x);
    NoMaskedTokens(h);
    MaskedCountAppend(r, x);
    MaskedCountAppend(r + x, h);
  }

  lemma OptionTokensUnmasked(s: CTSettings)
    ensures MaskedCount(OptionTokens(s)) == 0
  {
    var switches := SwitchTokens(s);
    var source := SourceTokens(s.sourceFolder);
    var report := ReportTokens(s.reportFolder);
    var sonar := SonarTokens(s.sonarVersion);
    SwitchTokensUnmasked(s);
    NoMaskedTokens(source);
    NoMaskedTokens(report);
    NoMaskedTokens(sonar);
    MaskedCountAppend(switches, source);
    MaskedCountAppend(switches + source, report);
    MaskedCountAppend(switches + source + report, sonar);
  }

  lemma ServerTokensUnmasked(environmentId: string, serverUrl: string)
    ensures MaskedCount(ServerTokens(environmentId, serverUrl)) == 0
    ensures MaskedCount(ServerTokens(environmentId, serverUrl) + [Plain(USER)]) == 0
  {
    var server := ServerTokens(environmentId, serverUrl);
    NoMaskedTokens(server);
    MaskedCountAppend(server, [Plain(USER)]);
    NoMaskedTokens([Plain(USER)]);
  }

  /** The password is the only masked token, the eighth. */
  lemma OnlyPasswordMasked(s: CTSettings, env: CTEnvironment)
    requires s.environmentId.Some? && s.serverUrl.Some?
    ensures var e := ArgumentEmission(s, env);
      (e.error.None? ==> |e.tokens| > 7 && e.tokens[7] == (env.login.value.password, true) && MaskedCount(e.tokens) == 1)
      && (e.error.Some? ==> MaskedCount(e.tokens) == 0)
  {
    var server := ServerTokens(s.environmentId.value, s.serverUrl.value);
    ServerTokensUnmasked(s.environmentId.value, s.serverUrl.value);
    if env.login.Some? {
      var login := LoginTokens(env.login.value);
      var folder := FolderTokens(s.folderPath, env.workspace, env.isAbsolute);
      var options := OptionTokens(s);
      LoginTokensMasked(env.login.value);
      FolderTokensUnmasked(s.folderPath, env.workspace, env.isAbsolute);
      OptionTokensUnmasked(s);
      MaskedCountAppend(server, login);
      MaskedCountAppend(server + login, folder);
      MaskedCountAppend(server + login + folder, options);
      assert (server + login + folder + options)[7] == login[3];
    }
  }

  /** The whole verdict of run: false without a channel; the missing login
      ends it with an exception; a non-zero exit is false without reading any
      result; otherwise the result file is located and read, and a failing
      verdict counts only when the step stops on failures. */
  function RunOutcome(s: CTSettings, env: CTEnvironment, exitValue: int): Result<bool, CTRunError>
    requires s.environmentId.Some? && s.serverUrl.Some?
  {
    if !env.hasChannel then Success(false)
    else if env.login.None? then Failure(MissingLogin)
    else if exitValue != 0 then Success(false)
    else ReadOutcome(s, env)
  }

  /** The verdict after a zero exit value: the suite result is located and
      read, and a failing verdict counts only when the step stops on
      failures. */
  function ReadOutcome(s: CTSettings, env: CTEnvironment): Result<bool, CTRunError> {
    var path := RemoteFilePath(s.folderPath, s.reportFolder, env.workspace, env.fileSeparator, env, SUITE_RESULT_FILE);
    if path.Failure? then Failure(path.error)
    else if path.value !in env.resultFiles then Failure(ResultFileUnreadable(path.value))
    else
      var result := TestResult(env.resultFiles[path.value], s.ccThreshold);
      Success(result == 0 || !s.stopIfTestFailsOrThresholdReached)
  }

  /** A non-zero exit value fails the build whatever the result files say. */
  lemma NonZeroExitIgnoresResults(s: CTSettings, env: CTEnvironment, exitValue: int, files: map<string, SuiteResult>)
    requires s.environmentId.Some? && s.serverUrl.Some?
    requires env.hasChannel && env.login.Some? && exitValue != 0
    ensures RunOutcome(s, env, exitValue) == Success(false)
    ensures RunOutcome(s, env.(resultFiles := files), exitValue) == Success(false)
  {
  }

  /** When the step does not stop on failures, a run whose results are read
      passes; when it does, it passes exactly on a zero verdict. */
  lemma FailurePolicy(s: CTSettings, env: CTEnvironment)
    requires s.environmentId.Some? && s.serverUrl.Some?
    requires RunOutcome(s, env, 0).Success? && env.hasChannel
    ensures var path := RemoteFilePath(s.folderPath, s.reportFolder, env.workspace, env.fileSeparator, env, SUITE_RESULT_FILE);
      path.Success? && path.value in env.resultFiles
      && (!s.stopIfTestFailsOrThresholdReached ==> RunOutcome(s, env, 0) == Success(true))
      && (s.stopIfTestFailsOrThresholdReached ==>
            RunOutcome(s, env, 0) == Success(TestResult(env.resultFiles[path.value], s.ccThreshold) == 0))
  {
  }

  // ---------------------------------------------------------------------------
  // The runner
  // ---------------------------------------------------------------------------

  class TotalTestCTRunner {
    const tttBuilder: TotalTestCTBuilder
    var workspacePath: Option<string>
    var remoteFileSeparator: Option<string>

    constructor (tttBuilder: TotalTestCTBuilder)
      ensures this.tttBuilder == tttBuilder
      ensures workspacePath.None? && remoteFileSeparator.None?
    {
      this.tttBuilder := tttBuilder;
      workspacePath := None;
      remoteFileSeparator := None;
    }

    /** addArguments. */
    method AddArguments(args: ArgumentListBuilder, env: CTEnvironment) returns (error: Option<CTRunError>)
      requires tttBuilder.environmentId.Some? && tttBuilder.serverUrl.Some?
      requires workspacePath == Some(env.workspace)
      modifies args
      ensures args.tokens == old(args.tokens) + ArgumentEmission(tttBuilder.Settings(), env).tokens
      ensures error == ArgumentEmission(tttBuilder.Settings(), env).error
    {
      AddServerArguments(args);
      ghost var server := ServerTokens(tttBuilder.environmentId.value, tttBuilder.serverUrl.value);
      if env.login.None? {
        args.Add(USER);
        AppendAssociates(old(args.tokens), server, [Plain(USER)]);
        return Some(MissingLogin);
      }
      AddLoginArguments(args, env.login.value);
      AddFolderArguments(args, env);
      AddOptionArguments(args);
      AppendFourAssociates(old(args.tokens), server, LoginTokens(env.login.value),
                           FolderTokens(tttBuilder.folderPath, env.workspace, env.isAbsolute),
                           OptionTokens(tttBuilder.Settings()));
      error := None;
    }

    /** The environment and the repository URL of addArguments. */
    method AddServerArguments(args: ArgumentListBuilder)
      requires tttBuilder.environmentId.Some? && tttBuilder.serverUrl.Some?
      modifies args
      ensures args.tokens == old(args.tokens) + ServerTokens(tttBuilder.environmentId.value, tttBuilder.serverUrl.value)
    {
      args.Add(ENVIRONMENT);
      args.AddMasked(tttBuilder.environmentId.value, false);
      var tttServerUrl := tttBuilder.serverUrl.value;
      if !EndsWith(tttServerUrl, SLASH) {
        tttServerUrl := tttServerUrl + SLASH;
      }
      tttServerUrl := tttServerUrl + TOTAL_TEST_WEBAPP + SLASH;
      args.Add(SERVER);
      args.AddMasked(tttServerUrl, false);
      AppendFour(old(args.tokens), Plain(ENVIRONMENT), Plain(tttBuilder.environmentId.value), Plain(SERVER),
                 Plain(tttServerUrl));
    }

    /** The user and the masked password of addArguments. */
    method AddLoginArguments(args: ArgumentListBuilder, login: Credential)
      modifies args
      ensures args.tokens == old(args.tokens) + LoginTokens(login)
    {
      args.Add(USER);
      args.AddMasked(login.username, false);
      args.Add(PASSWORD);
      args.AddMasked(login.password, true);
      AppendFour(old(args.tokens), Plain(USER), Plain(login.username), Plain(PASSWORD), (login.password, true));
    }

    /** The `-f` and `-r` part of addArguments. */
    method AddFolderArguments(args: ArgumentListBuilder, env: CTEnvironment)
      requires workspacePath == Some(env.workspace)
      modifies args
      ensures args.tokens == old(args.tokens) + FolderTokens(tttBuilder.folderPath, env.workspace, env.isAbsolute)
    {
      var folder := tttBuilder.folderPath;
      var folderText: string;
      if folder.None? || |folder.value| == 0 || |Trim(folder.value)| == 0 {
        folderText := CURRENT_FOLDER;
      } else {
        folderText := folder.value;
      }
      args.Add(FOLDER);
      args.AddMasked(folderText, false);
      AppendTwo(old(args.tokens), Plain(FOLDER), Plain(folderText));
      var rootFolder := workspacePath.value;
      if folderText != CURRENT_FOLDER {
        if !env.isAbsolute(tttBuilder.folderPath.value) {
          args.Add(ROOT);
          args.Add(rootFolder);
          AppendTwo(old(args.tokens) + [Plain(FOLDER), Plain(folderText)], Plain(ROOT), Plain(rootFolder));
          AppendAssociates(old(args.tokens), [Plain(FOLDER), Plain(folderText)], [Plain(ROOT), Plain(rootFolder)]);
        } else {
          assert old(args.tokens) + [Plain(FOLDER), Plain(folderText)] + []
            == old(args.tokens) + ([Plain(FOLDER), Plain(folderText)] + []);
        }
      } else {
        args.Add(ROOT);
        args.Add(rootFolder);
        AppendTwo(old(args.tokens) + [Plain(FOLDER), Plain(folderText)], Plain(ROOT), Plain(rootFolder));
        AppendAssociates(old(args.tokens), [Plain(FOLDER), Plain(folderText)], [Plain(ROOT), Plain(rootFolder)]);
      }
    }

    /** One flag of addArguments. */
    method AddFlag(args: ArgumentListBuilder, on: bool, flag: string)
      modifies args
      ensures args.tokens == old(args.tokens) + FlagTokens(on, flag)
    {
      if on {
        args.Add(flag);
      }
    }

    /** The optional tokens of addArguments. */
    method AddOptionArguments(args: ArgumentListBuilder)
      modifies args
      ensures args.tokens == old(args.tokens) + OptionTokens(tttBuilder.Settings())
    {
      AddFlag(args, tttBuilder.recursive, RECURSIVE);
      AddFlag(args, tttBuilder.uploadToServer, UPLOAD);
      AddFlag(args, tttBuilder.haltAtFailure, HALT);
      AppendThreeAssociates(old(args.tokens), FlagTokens(tttBuilder.recursive, RECURSIVE),
                            FlagTokens(tttBuilder.uploadToServer, UPLOAD), FlagTokens(tttBuilder.haltAtFailure, HALT));
      AddSourceArguments(args);
      AddReportArguments(args);
      AddSonarArguments(args);
      AppendFourAssociates(old(args.tokens), SwitchTokens(tttBuilder.Settings()), SourceTokens(tttBuilder.sourceFolder),
                           ReportTokens(tttBuilder.reportFolder), SonarTokens(tttBuilder.GetSonarVersion()));
    }

    /** The source folder, unless it is COBOL. */
    method AddSourceArguments(args: ArgumentListBuilder)
      modifies args
      ensures args.tokens == old(args.tokens) + SourceTokens(tttBuilder.sourceFolder)
    {
      var sourceFolder := tttBuilder.sourceFolder;
      if !(sourceFolder.None? || |sourceFolder.value| == 0) && !EqualsIgnoreCase(sourceFolder.value, COBOL) {
        args.Add(SOURCE);
        args.Add(sourceFolder.value);
        AppendTwo(old(args.tokens), Plain(SOURCE), Plain(sourceFolder.value));
      }
    }

    /** The report folder and the request for a report. */
    method AddReportArguments(args: ArgumentListBuilder)
      modifies args
      ensures args.tokens == old(args.tokens) + ReportTokens(tttBuilder.reportFolder)
    {
      var reportFolder := tttBuilder.reportFolder;
      if !(reportFolder.None? || |reportFolder.value| == 0) {
        args.Add(REPORT);
        args.Add(reportFolder.value);
        args.Add(GENERATE_REPORT);
        AppendThree(old(args.tokens), Plain(REPORT), Plain(reportFolder.value), Plain(GENERATE_REPORT));
      }
    }

    /** The Sonar version. */
    method AddSonarArguments(args: ArgumentListBuilder)
      modifies args
      ensures args.tokens == old(args.tokens) + SonarTokens(tttBuilder.GetSonarVersion())
    {
      var sonarVersion := tttBuilder.GetSonarVersion();
      if |sonarVersion| != 0 {
        args.Add(SONAR);
        args.Add(sonarVersion);
        AppendTwo(old(args.tokens), Plain(SONAR), Plain(sonarVersion));
      }
    }

    /** getRemoteFilePath, on the workspace and separator run recorded. */
    method GetRemoteFilePath(env: CTEnvironment, osFile: string) returns (path: Result<string, CTRunError>)
      requires workspacePath.Some? && remoteFileSeparator.Some?
      ensures path == RemoteFilePath(tttBuilder.folderPath, tttBuilder.reportFolder, workspacePath.value,
                                     remoteFileSeparator.value, env, osFile)
    {
      var workDir := workspacePath.value;
      var folder := tttBuilder.folderPath;
      if folder.Some? && |folder.value| != 0 && folder.value != CURRENT_FOLDER {
        if env.isAbsolute(folder.value) && folder.value in env.directories {
          workDir := folder.value;
        }
      }
      if workDir !in env.directories {
        return Failure(WorkDirNotFound(workDir));
      }
      var filenameAndPath := workDir;
      var reportFolder := tttBuilder.reportFolder;
      if reportFolder.Some? && |Trim(reportFolder.value)| > 0 {
        var report := Trim(reportFolder.value);
        if env.isAbsolute(report) && report in env.directories {
          filenameAndPath := report;
        } else {
          filenameAndPath := filenameAndPath + remoteFileSeparator.value + report;
        }
      }
      var fileFound := SearchFileFromDir(Some(env.entryAt(filenameAndPath)), Some(osFile));
      if fileFound.Some? {
        filenameAndPath := fileFound.value;
      } else {
        filenameAndPath := filenameAndPath + remoteFileSeparator.value + osFile;
      }
      path := Success(filenameAndPath);
    }

    /** run: the command line launched, and the build's verdict. */
    method Run(env: CTEnvironment, exitValue: int) returns (r: Result<bool, CTRunError>, args: ArgumentListBuilder)
      requires tttBuilder.environmentId.Some? && tttBuilder.serverUrl.Some?
      modifies this`workspacePath, this`remoteFileSeparator
      ensures fresh(args)
      ensures r == RunOutcome(tttBuilder.Settings(), env, exitValue)
      ensures !env.hasChannel ==> args.tokens == []
      ensures env.hasChannel ==>
        workspacePath == Some(env.workspace) && remoteFileSeparator == Some(env.fileSeparator)
        && args.tokens == [Plain(env.cliScriptPath)] + ArgumentEmission(tttBuilder.Settings(), env).tokens
    {
      args := new ArgumentListBuilder();
      if !env.hasChannel {
        return Success(false), args;
      }
      workspacePath := Some(env.workspace);
      remoteFileSeparator := Some(env.fileSeparator);
      args.Add(env.cliScriptPath);
      ghost var s := tttBuilder.Settings();
      var error := AddArguments(args, env);
      assert s == tttBuilder.Settings();
      assert args.tokens == [Plain(env.cliScriptPath)] + ArgumentEmission(s, env).tokens;
      if error.Some? {
        assert env.login.None?;
        return Failure(error.value), args;
      }
      assert env.login.Some?;
      if exitValue == 0 {
        r := ReadVerdict(env);
        assert r == ReadOutcome(s, env);
      } else {
        r := Success(false);
      }
      assert r == RunOutcome(s, env, exitValue);
    }

    /** The part of run that reads the suite result after a zero exit value. */
    method ReadVerdict(env: CTEnvironment) returns (r: Result<bool, CTRunError>)
      requires workspacePath == Some(env.workspace) && remoteFileSeparator == Some(env.fileSeparator)
      ensures r == ReadOutcome(tttBuilder.Settings(), env)
    {
      var resultPath := GetRemoteFilePath(env, SUITE_RESULT_FILE);
      if resultPath.Failure? {
        return Failure(resultPath.error);
      }
      if resultPath.value !in env.resultFiles {
        return Failure(ResultFileUnreadable(resultPath.value));
      }
      var exit := TestResult(env.resultFiles[resultPath.value], tttBuilder.ccThreshold);
      if exit != 0 {
        if !tttBuilder.stopIfTestFailsOrThresholdReached {
          exit := 0;
        }
      }
      r := Success(exit == 0);
    }
  }
}
