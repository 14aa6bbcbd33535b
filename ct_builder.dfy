/** The functional-test build step (TotalTestCTBuilder): its fields and their
    defaults, the getters that fall back to a default, the "select programs"
    radio with its normalisation, the local configuration switch, and the
    checks its configuration form and its pre-build validation run. */
module FunctionalTestBuilder {
  import opened Wrappers
  import opened JavaText
  import opened TotalTestRunnerUtils

  const MAX_ACCOUNTING_LEN: nat := 52
  const SELECT_PROGRAMS_JSON: string := "-pnf"
  const SELECT_PROGRAMS_LIST: string := "-pn"
  const DEFAULT_SONAR_VERSION: string := "6"
  const DEFAULT_LOG_LEVEL: string := "INFO"
  const DEFAULT_SOURCE_FOLDER: string := "COBOL"
  const DEFAULT_REPORT_FOLDER: string := "TTTReport"
  const DEFAULT_ACCOUNT_INFO: string := ""
  const DEFAULT_LOCAL_CONFIG_LOCATION: string := "./TotalTestConfiguration"
  const DEFAULT_CC_THRESHOLD: int := 0
  const MAX_CC_THRESHOLD: int := 100

  // ---------------------------------------------------------------------------
  // Getters with a default
  // ---------------------------------------------------------------------------

  /** The stored value, or `default` when it is null or empty. */
  function ValueOrDefault(value: Option<string>, default: string): (r: string)
    ensures default != "" ==> r != ""
    ensures IsNullOrEmpty(value) ==> r == default
    ensures !IsNullOrEmpty(value) ==> r == value.value
  {
    if IsNullOrEmpty(value) then default else value.value
  }

  /** Applying the default twice is applying it once. */
  lemma ValueOrDefaultIdempotent(value: Option<string>, default: string)
    requires default != ""
    ensures ValueOrDefault(Some(ValueOrDefault(value, default)), default) == ValueOrDefault(value, default)
  {
  }

  // ---------------------------------------------------------------------------
  // The "select programs" radio
  // ---------------------------------------------------------------------------

  /** What isSelectProgramsJSON leaves in the field: a null or empty value
      becomes the JSON option, anything else is kept. */
  function NormalizedSelectPrograms(selectPrograms: Option<string>): (r: Option<string>)
    ensures !IsNullOrEmpty(r)
    ensures !IsNullOrEmpty(selectPrograms) ==> r == selectPrograms
  {
    if IsNullOrEmpty(selectPrograms) then Some(SELECT_PROGRAMS_JSON) else selectPrograms
  }

  lemma NormalizedSelectProgramsIdempotent(selectPrograms: Option<string>)
    ensures NormalizedSelectPrograms(NormalizedSelectPrograms(selectPrograms)) == NormalizedSelectPrograms(selectPrograms)
  {
  }

  /** isSelectProgramsJSON's answer, on the field before normalisation. */
  predicate SelectsJson(selectPrograms: Option<string>) {
    var normalized := NormalizedSelectPrograms(selectPrograms);
    IsNullOrEmpty(normalized) || normalized.value == SELECT_PROGRAMS_JSON
  }

  /** isSelectProgramsList. */
  predicate SelectsList(selectPrograms: Option<string>) {
    !IsNullOrEmpty(selectPrograms) && selectPrograms.value == SELECT_PROGRAMS_LIST
  }

  /** The JSON option is chosen exactly when the field is null, empty or
      `-pnf`; the list option exactly when it is `-pn`; never both. */
  lemma SelectProgramsOptions(selectPrograms: Option<string>)
    ensures SelectsJson(selectPrograms) <==>
      (IsNullOrEmpty(selectPrograms) || selectPrograms == Some(SELECT_PROGRAMS_JSON))
    ensures SelectsList(selectPrograms) <==> selectPrograms == Some(SELECT_PROGRAMS_LIST)
    ensures !(SelectsJson(selectPrograms) && SelectsList(NormalizedSelectPrograms(selectPrograms)))
  {
  }

  /** getSelectPrograms: `-pnf` when the JSON option is chosen, `-pn` for
      every other value, recognised or not. */
  function SelectedPrograms(selectPrograms: Option<string>): (r: string)
    ensures r == SELECT_PROGRAMS_JSON <==> (IsNullOrEmpty(selectPrograms) || selectPrograms == Some(SELECT_PROGRAMS_JSON))
    ensures r == SELECT_PROGRAMS_LIST <==> !(IsNullOrEmpty(selectPrograms) || selectPrograms == Some(SELECT_PROGRAMS_JSON))
  {
    SelectProgramsOptions(selectPrograms);
    if SelectsJson(selectPrograms) then SELECT_PROGRAMS_JSON else SELECT_PROGRAMS_LIST
  }

  /** getselectProgramsRadioValue and getselectProgramsText: nothing while the
      option box is ticked; otherwise `-pnf`, `-pn`, or nothing for an
      unrecognised value. */
  function SelectProgramsRadio(selectProgramsOption: bool, selectPrograms: Option<string>): (r: Option<string>)
    ensures selectProgramsOption ==> r.None?
    ensures r == Some(SELECT_PROGRAMS_JSON) <==>
      (!selectProgramsOption && (IsNullOrEmpty(selectPrograms) || selectPrograms == Some(SELECT_PROGRAMS_JSON)))
    ensures r == Some(SELECT_PROGRAMS_LIST) <==> (!selectProgramsOption && selectPrograms == Some(SELECT_PROGRAMS_LIST))
    ensures r.None? <==> (selectProgramsOption || !(IsNullOrEmpty(selectPrograms)
      || selectPrograms == Some(SELECT_PROGRAMS_JSON) || selectPrograms == Some(SELECT_PROGRAMS_LIST)))
  {
    SelectProgramsOptions(selectPrograms);
    if selectProgramsOption then None
    else if SelectsJson(selectPrograms) then Some(SELECT_PROGRAMS_JSON)
    else if SelectsList(NormalizedSelectPrograms(selectPrograms)) then Some(SELECT_PROGRAMS_LIST)
    else None
  }

  /** When the radio shows a value, it is the value getSelectPrograms
      returns. */
  lemma RadioAgreesWithSelectedPrograms(selectProgramsOption: bool, selectPrograms: Option<string>)
    requires SelectProgramsRadio(selectProgramsOption, selectPrograms).Some?
    ensures SelectProgramsRadio(selectProgramsOption, selectPrograms).value == SelectedPrograms(selectPrograms)
  {
  }

  // ---------------------------------------------------------------------------
  // Form checks and the pre-build validation
  // ---------------------------------------------------------------------------

  /** The reasons doCheckCcThreshold, doCheckAccountInfo and
      validateParameters reject a value. */
  datatype CTParameterError =
    | InvalidCcThreshold      // empty, not an int, or outside 0..100
    | AccountInfoTooLong      // more than 52 characters
    | MissingEnvironmentId
    | MissingServerUrl
    | MissingCredentialsId
    | InvalidCredentialsId    // no credential of the job has that id
    | NullParameter           // a null field dereferenced

  /** doCheckCcThreshold: the text must parse as a Java int in 0..100. */
  function DoCheckCcThreshold(value: string): (r: Outcome<CTParameterError>)
    ensures r.Pass? <==> ParseInt(value).Some? && 0 <= ParseInt(value).value <= MAX_CC_THRESHOLD
    ensures r.Fail? ==> r.error == InvalidCcThreshold
    ensures value == "" ==> r.Fail?
  {
    if |value| == 0 then Fail(InvalidCcThreshold)
    else
      var parsed := ParseInt(value);
      if parsed.None? then Fail(InvalidCcThreshold)
      else if parsed.value < 0 || parsed.value > MAX_CC_THRESHOLD then Fail(InvalidCcThreshold)
      else Pass
  }

  /** Every threshold 0..100, written in decimal, is accepted. */
  lemma DecimalThresholdAccepted(n: nat)
    requires n <= 100
    ensures DoCheckCcThreshold(DecimalText(n)).Pass?
  {
    ParseDecimalText(n);
  }

  /** A threshold above 100 is rejected. */
  lemma LargeThresholdRejected(n: nat)
    requires 100 < n <= MAX_INT
    ensures DoCheckCcThreshold(DecimalText(n)) == Fail(InvalidCcThreshold)
  {
    ParseDecimalText(n);
  }

  /** doCheckAccountInfo: a blank or null value is fine; otherwise its
      untrimmed length must not exceed 52. */
  function DoCheckAccountInfo(value: Option<string>): (r: Outcome<CTParameterError>)
    ensures r.Fail? <==> value.Some? && Trim(value.value) != "" && |value.value| > MAX_ACCOUNTING_LEN
    ensures r.Fail? ==> r.error == AccountInfoTooLong
  {
    if value.Some? && |Trim(value.value)| > 0 && |value.value| > MAX_ACCOUNTING_LEN then Fail(AccountInfoTooLong)
    else Pass
  }

  /** The accounting rule of validateParameters: a non-empty value longer
      than 52 characters is rejected, a null one dereferenced. */
  function CheckAccountInfo(accountInfo: Option<string>): (r: Outcome<CTParameterError>)
    ensures r.Pass? <==> accountInfo.Some? && |accountInfo.value| <= MAX_ACCOUNTING_LEN
    ensures r.Fail? ==> r.error == (if accountInfo.None? then NullParameter else AccountInfoTooLong)
  {
    if accountInfo.None? then Fail(NullParameter)
    else if |accountInfo.value| > 0 && |accountInfo.value| > MAX_ACCOUNTING_LEN then Fail(AccountInfoTooLong)
    else Pass
  }

  /** On a value that is not blank the form check and the pre-build check
      agree. */
  lemma AccountInfoChecksAgree(value: string)
    requires Trim(value) != ""
    ensures DoCheckAccountInfo(Some(value)) == CheckAccountInfo(Some(value))
  {
  }

  lemma TrimAllBlank(s: string)
    requires forall i :: 0 <= i < |s| ==> s[i] == ' '
    ensures Trim(s) == ""
  {
  }

  /** On 53 blanks they do not: the form accepts what the build rejects. */
  lemma BlankAccountInfoChecksDiffer()
    ensures DoCheckAccountInfo(Some(Repeat(' ', 53))).Pass?
    ensures CheckAccountInfo(Some(Repeat(' ', 53))) == Fail(AccountInfoTooLong)
  {
    TrimAllBlank(Repeat(' ', 53));
  }

  /** validateParameters: the environment id, the server URL and the
      credential id must be non-empty, in that order, the credential id must
      name a credential of the job, and the accounting information must fit;
      a null among them is dereferenced. */
  function ValidateParameters(environmentId: Option<string>, serverUrl: Option<string>, credentialsId: Option<string>,
                              accountInfo: Option<string>, credentials: seq<Credential>): (r: Outcome<CTParameterError>)
    ensures r.Pass? <==>
      environmentId.Some? && environmentId.value != "" && serverUrl.Some? && serverUrl.value != ""
      && credentialsId.Some? && credentialsId.value != "" && LastWithId(credentials, credentialsId.value).Some?
      && accountInfo.Some? && |accountInfo.value| <= MAX_ACCOUNTING_LEN
    ensures r == Fail(MissingEnvironmentId) <==> environmentId == Some("")
    ensures r == Fail(MissingServerUrl) <==> !IsNullOrEmpty(environmentId) && serverUrl == Some("")
    ensures r == Fail(MissingCredentialsId) <==>
      !IsNullOrEmpty(environmentId) && !IsNullOrEmpty(serverUrl) && credentialsId == Some("")
    ensures r == Fail(InvalidCredentialsId) <==>
      !IsNullOrEmpty(environmentId) && !IsNullOrEmpty(serverUrl) && !IsNullOrEmpty(credentialsId)
      && LastWithId(credentials, credentialsId.value).None?
  {
    if environmentId.None? then Fail(NullParameter)
    else if |environmentId.value| == 0 then Fail(MissingEnvironmentId)
    else if serverUrl.None? then Fail(NullParameter)
    else if |serverUrl.value| == 0 then Fail(MissingServerUrl)
    else if credentialsId.None? then Fail(NullParameter)
    else if |credentialsId.value| == 0 then Fail(MissingCredentialsId)
    else if LastWithId(credentials, credentialsId.value).None? then Fail(InvalidCredentialsId)
    else CheckAccountInfo(accountInfo)
  }

  /** The configuration the functional-test runner reads through the
      step's getters. */
  datatype CTSettings = CTSettings(
    environmentId: Option<string>,
    folderPath: Option<string>,
    serverUrl: Option<string>,
    credentialsId: Option<string>,
    recursive: bool,
    stopIfTestFailsOrThresholdReached: bool,
    uploadToServer: bool,
    haltAtFailure: bool,
    ccThreshold: int,
    sonarVersion: string,
    sourceFolder: Option<string>,
    reportFolder: Option<string>)

  // ---------------------------------------------------------------------------
  // The build step
  // ---------------------------------------------------------------------------

  class TotalTestCTBuilder {
    const environmentId: Option<string>
    const folderPath: Option<string>
    const serverUrl: Option<string>
    const credentialsId: Option<string>
    var localConfig: bool
    var localConfigLocation: Option<string>
    var recursive: bool
    var stopIfTestFailsOrThresholdReached: bool
    var uploadToServer: bool
    var haltAtFailure: bool
    var ccThreshold: int
    var sonarVersion: Option<string>
    var logLevel: Option<string>
    var sourceFolder: Option<string>
    var reportFolder: Option<string>
    var accountInfo: Option<string>
    var selectProgramsOption: bool
    var selectPrograms: Option<string>

    /** The constructor stores its four arguments as given; every other
        field starts at its default. */
    constructor (environmentId: Option<string>, folderPath: Option<string>, serverUrl: Option<string>,
                 credentialsId: Option<string>)
      ensures this.environmentId == environmentId && this.folderPath == folderPath
      ensures this.serverUrl == serverUrl && this.credentialsId == credentialsId
      ensures !localConfig && localConfigLocation == Some(DEFAULT_LOCAL_CONFIG_LOCATION)
      ensures !recursive && !stopIfTestFailsOrThresholdReached && !uploadToServer && !haltAtFailure
      ensures ccThreshold == DEFAULT_CC_THRESHOLD
      ensures sonarVersion == Some(DEFAULT_SONAR_VERSION) && logLevel == Some(DEFAULT_LOG_LEVEL)
      ensures sourceFolder == Some(DEFAULT_SOURCE_FOLDER) && reportFolder == Some(DEFAULT_REPORT_FOLDER)
      ensures accountInfo == Some(DEFAULT_ACCOUNT_INFO)
      ensures !selectProgramsOption && selectPrograms == Some(SELECT_PROGRAMS_JSON)
    {
      this.environmentId := environmentId;
      this.folderPath := folderPath;
      this.serverUrl := serverUrl;
      this.credentialsId := credentialsId;
      localConfig := false;
      localConfigLocation := Some(DEFAULT_LOCAL_CONFIG_LOCATION);
      recursive := false;
      stopIfTestFailsOrThresholdReached := false;
      uploadToServer := false;
      haltAtFailure := false;
      ccThreshold := DEFAULT_CC_THRESHOLD;
      sonarVersion := Some(DEFAULT_SONAR_VERSION);
      logLevel := Some(DEFAULT_LOG_LEVEL);
      sourceFolder := Some(DEFAULT_SOURCE_FOLDER);
      reportFolder := Some(DEFAULT_REPORT_FOLDER);
      accountInfo := Some(DEFAULT_ACCOUNT_INFO);
      selectProgramsOption := false;
      selectPrograms := Some(SELECT_PROGRAMS_JSON);
    }

    /** getSonarVersion: never empty. */
    function GetSonarVersion(): (r: string)
      reads this
      ensures r != ""
      ensures r == (if IsNullOrEmpty(sonarVersion) then DEFAULT_SONAR_VERSION else sonarVersion.value)
    {
      ValueOrDefault(sonarVersion, DEFAULT_SONAR_VERSION)
    }

    /** getLogLevel: never empty. */
    function GetLogLevel(): (r: string)
      reads this
      ensures r != ""
      ensures r == (if IsNullOrEmpty(logLevel) then DEFAULT_LOG_LEVEL else logLevel.value)
    {
      ValueOrDefault(logLevel, DEFAULT_LOG_LEVEL)
    }

    /** setLocalConfig: local configuration is on only when asked for and a
        location is already set; nothing else changes. */
    method SetLocalConfig(localConfig: bool)
      modifies this`localConfig
      ensures this.localConfig <==> localConfig && !IsNullOrEmpty(localConfigLocation)
    {
      this.localConfig := localConfig && !IsNullOrEmpty(localConfigLocation);
    }

    /** setLocalConfigLocation; it does not revisit the switch. */
    method SetLocalConfigLocation(localConfigLocation: Option<string>)
      modifies this`localConfigLocation
      ensures this.localConfigLocation == localConfigLocation
    {
      this.localConfigLocation := localConfigLocation;
    }

    /** isSelectProgramsJSON, which normalises the field as a side effect. */
    method IsSelectProgramsJson() returns (json: bool)
      modifies this`selectPrograms
      ensures selectPrograms == NormalizedSelectPrograms(old(selectPrograms))
      ensures json == SelectsJson(old(selectPrograms))
    {
      if selectPrograms.None? || |selectPrograms.value| == 0 {
        selectPrograms := Some(SELECT_PROGRAMS_JSON);
      }
      json := selectPrograms.None? || |selectPrograms.value| == 0 || selectPrograms.value == SELECT_PROGRAMS_JSON;
    }

    /** isSelectProgramsList. */
    function IsSelectProgramsList(): (list: bool)
      reads this
      ensures list <==> selectPrograms == Some(SELECT_PROGRAMS_LIST)
    {
      SelectsList(selectPrograms)
    }

    /** getSelectPrograms. */
    method GetSelectPrograms() returns (selected: string)
      modifies this`selectPrograms
      ensures selectPrograms == NormalizedSelectPrograms(old(selectPrograms))
      ensures selected == SelectedPrograms(old(selectPrograms))
    {
      var json := IsSelectProgramsJson();
      if json {
        selected := SELECT_PROGRAMS_JSON;
      } else {
        selected := SELECT_PROGRAMS_LIST;
      }
    }

    /** getselectProgramsRadioValue: the field is normalised only when the
        option box is not ticked. */
    method GetSelectProgramsRadioValue() returns (radio: Option<string>)
      modifies this`selectPrograms
      ensures selectPrograms == (if selectProgramsOption then old(selectPrograms)
                                 else NormalizedSelectPrograms(old(selectPrograms)))
      ensures radio == SelectProgramsRadio(selectProgramsOption, old(selectPrograms))
    {
      radio := None;
      if !selectProgramsOption {
        var json := IsSelectProgramsJson();
        if json {
          radio := Some(SELECT_PROGRAMS_JSON);
        } else if IsSelectProgramsList() {
          radio := Some(SELECT_PROGRAMS_LIST);
        }
      }
    }

    /** getselectProgramsText, whose body is that of
        getselectProgramsRadioValue. */
    method GetSelectProgramsText() returns (text: Option<string>)
      modifies this`selectPrograms
      ensures selectPrograms == (if selectProgramsOption then old(selectPrograms)
                                 else NormalizedSelectPrograms(old(selectPrograms)))
      ensures text == SelectProgramsRadio(selectProgramsOption, old(selectPrograms))
    {
      text := GetSelectProgramsRadioValue();
    }

    /** validateParameters on the current fields, against the credentials
        the job can see. */
    function Validate(credentials: seq<Credential>): (r: Outcome<CTParameterError>)
      reads this
      ensures r.Pass? ==> !IsNullOrEmpty(environmentId) && !IsNullOrEmpty(serverUrl)
      ensures r.Pass? ==> accountInfo.Some? && |accountInfo.value| <= MAX_ACCOUNTING_LEN
    {
      ValidateParameters(environmentId, serverUrl, credentialsId, accountInfo, credentials)
    }

    /** What the runner reads. */
    function Settings(): (s: CTSettings)
      reads this
      ensures s.sonarVersion == GetSonarVersion()
      ensures s.sonarVersion != ""
      ensures IsNullOrEmpty(sonarVersion) ==> s.sonarVersion == DEFAULT_SONAR_VERSION
      ensures s.environmentId == environmentId && s.serverUrl == serverUrl && s.folderPath == folderPath
    {
      CTSettings(environmentId, folderPath, serverUrl, credentialsId, recursive, stopIfTestFailsOrThresholdReached,
                 uploadToServer, haltAtFailure, ccThreshold, GetSonarVersion(), sourceFolder, reportFolder)
    }
  }
}
