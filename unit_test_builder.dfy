/** The unit-test build step: the job configuration it stores (trimmed by its
    constructor and setters), the checks its configuration form runs on each
    field, and the checks it runs on the whole configuration before a build. */
module UnitTestBuilder {
  import opened Wrappers
  import opened JavaText
  import opened TotalTestRunnerUtils

  const TEST_SCENARIO_SUFFIX: string := ".testscenario"
  const TEST_SUITE_SUFFIX: string := ".testsuite"
  const DB2: string := "DB2"
  const IMS: string := "IMS"
  const TOTALTEST: string := "TOTALTEST"

  /** Longest code coverage repository and system/test id the form accepts. */
  const MAX_CC_REPO_LENGTH: nat := 44
  const MAX_CC_ID_LENGTH: nat := 16

  /** The configuration of one unit-test build step, as the runner reads it
      through the step's getters. */
  datatype UnitTestSettings = UnitTestSettings(
    connectionId: string,
    hostPort: Option<string>,
    credentialsId: string,
    projectFolder: string,
    testSuite: string,
    jcl: string,
    hlq: Option<string>,
    useStubs: bool,
    deleteTemp: bool,
    ccRepo: Option<string>,
    ccSystem: Option<string>,
    ccTestId: Option<string>,
    ccPgmType: string,
    ccClearStats: bool)

  /** The code coverage program type that getCcPgmType reports: the stored
      type, or TOTALTEST when none is stored. */
  function EffectivePgmType(stored: Option<string>): (t: string)
    ensures t != ""
    ensures stored.Some? && stored.value != "" ==> t == stored.value
    ensures IsNullOrEmpty(stored) ==> t == TOTALTEST
  {
    if IsNullOrEmpty(stored) then TOTALTEST else stored.value
  }

  class TotalTestBuilder {
    var connectionId: string
    /** The deprecated `host:port` field kept for configurations saved before
        host connections existed; null unless such a configuration set it. */
    var hostPort: Option<string>
    var credentialsId: string
    var projectFolder: string
    var testSuite: string
    var jcl: string
    var datasetHLQ: Option<string>
    var useStubs: bool
    var deleteTemp: bool
    var ccRepo: Option<string>
    var ccSystem: Option<string>
    var ccTestId: Option<string>
    var ccPgmType: Option<string>
    var ccClearStats: bool

    /** Every string argument is trimmed, null becoming ""; the three flags
        start out true and the optional fields unset. */
    constructor (connectionId: Option<string>, credentialsId: Option<string>,
                 projectFolder: Option<string>, testSuite: Option<string>, jcl: Option<string>)
      ensures this.connectionId == TrimToEmpty(connectionId)
      ensures this.credentialsId == TrimToEmpty(credentialsId)
      ensures this.projectFolder == TrimToEmpty(projectFolder)
      ensures this.testSuite == TrimToEmpty(testSuite)
      ensures this.jcl == TrimToEmpty(jcl)
      ensures IsTrimmedForm(this.connectionId) && IsTrimmedForm(this.credentialsId)
      ensures IsTrimmedForm(this.projectFolder) && IsTrimmedForm(this.testSuite) && IsTrimmedForm(this.jcl)
      ensures useStubs && deleteTemp && ccClearStats
      ensures hostPort.None? && datasetHLQ.None?
      ensures ccRepo.None? && ccSystem.None? && ccTestId.None? && ccPgmType.None?
    {
      this.connectionId := TrimToEmpty(connectionId);
      this.credentialsId := TrimToEmpty(credentialsId);
      this.projectFolder := TrimToEmpty(projectFolder);
      this.testSuite := TrimToEmpty(testSuite);
      this.jcl := TrimToEmpty(jcl);
      hostPort := None;
      datasetHLQ := None;
      useStubs := true;
      deleteTemp := true;
      ccRepo := None;
      ccSystem := None;
      ccTestId := None;
      ccPgmType := None;
      ccClearStats := true;
    }

    method SetHostPort(hostPort: Option<string>)
      modifies this`hostPort
      ensures this.hostPort == hostPort
    {
      this.hostPort := hostPort;
    }

    method SetCcRepo(ccRepo: Option<string>)
      modifies this`ccRepo
      ensures this.ccRepo == Some(TrimToEmpty(ccRepo)) && IsTrimmedForm(this.ccRepo.value)
    {
      this.ccRepo := Some(TrimToEmpty(ccRepo));
    }

    method SetCcSystem(ccSystem: Option<string>)
      modifies this`ccSystem
      ensures this.ccSystem == Some(TrimToEmpty(ccSystem)) && IsTrimmedForm(this.ccSystem.value)
    {
      this.ccSystem := Some(TrimToEmpty(ccSystem));
    }

    method SetCcTestId(ccTestId: Option<string>)
      modifies this`ccTestId
      ensures this.ccTestId == Some(TrimToEmpty(ccTestId)) && IsTrimmedForm(this.ccTestId.value)
    {
      this.ccTestId := Some(TrimToEmpty(ccTestId));
    }

    /** setCcDB2 selects the DB2 program type whatever the flag says. */
    method SetCcDB2(ccDB2: bool)
      modifies this`ccPgmType
      ensures ccPgmType == Some(DB2)
      ensures GetCcDB2() && GetCcPgmType() == DB2
    {
      ccPgmType := Some(DB2);
    }

    /** getCcDB2: the stored type is DB2, ignoring case. */
    function GetCcDB2(): (db2: bool)
      reads this
      ensures db2 <==> ccPgmType.Some? && ToUpper(ccPgmType.value) == DB2
      ensures db2 ==> GetCcPgmType() == ccPgmType.value
    {
      assert ToUpper(DB2) == DB2 by {
        assert forall i :: 0 <= i < |DB2| ==> UpperChar(DB2[i]) == DB2[i];
      }
      if ccPgmType.Some? then EqualsIgnoreCaseIsUpperEquality(DB2, ccPgmType.value); ccPgmType.Some? && EqualsIgnoreCase(DB2, ccPgmType.value)
      else false
    }

    function GetCcPgmType(): (t: string)
      reads this
      ensures t != ""
      ensures t == EffectivePgmType(ccPgmType)
    {
      EffectivePgmType(ccPgmType)
    }

    method SetCcPgmType(ccType: Option<string>)
      modifies this`ccPgmType
      ensures ccPgmType == ccType
    {
      ccPgmType := ccType;
    }

    method SetCcClearStats(ccClearStats: bool)
      modifies this`ccClearStats
      ensures this.ccClearStats == ccClearStats
    {
      this.ccClearStats := ccClearStats;
    }

    method SetUseStubs(useStubs: bool)
      modifies this`useStubs
      ensures this.useStubs == useStubs
    {
      this.useStubs := useStubs;
    }

    method SetDeleteTemp(deleteTemp: bool)
      modifies this`deleteTemp
      ensures this.deleteTemp == deleteTemp
    {
      this.deleteTemp := deleteTemp;
    }

    method SetHlq(hlq: Option<string>)
      modifies this`datasetHLQ
      ensures datasetHLQ == Some(TrimToEmpty(hlq)) && IsTrimmedForm(datasetHLQ.value)
    {
      datasetHLQ := Some(TrimToEmpty(hlq));
    }

    /** What the runner reads through the getters. */
    function Settings(): (s: UnitTestSettings)
      reads this
      ensures s.ccPgmType == GetCcPgmType()
      ensures s.ccPgmType != ""
      ensures IsNullOrEmpty(ccPgmType) ==> s.ccPgmType == TOTALTEST
    {
      UnitTestSettings(connectionId, hostPort, credentialsId, projectFolder, testSuite, jcl,
                       datasetHLQ, useStubs, deleteTemp, ccRepo, ccSystem, ccTestId,
                       GetCcPgmType(), ccClearStats)
    }
  }

  // ---------------------------------------------------------------------------
  // The test suite selector
  // ---------------------------------------------------------------------------

  datatype TestSuiteError =
    | EmptyTestSuite
    | SpecialNameInList(name: string)   // a sentinel among several names
    | NotSuiteOrScenario(name: string)  // a name with neither file suffix

  /** A list element the checks let through: after trimming and lower-casing
      it is not a sentinel and ends in one of the two file suffixes. */
  predicate IsTestFileName(name: string) {
    var lcName := ToLower(Trim(name));
    !IsSpecialTestName(lcName)
    && (EndsWith(lcName, TEST_SUITE_SUFFIX) || EndsWith(lcName, TEST_SCENARIO_SUFFIX))
  }

  /** The message for a list element that is not a test file name. */
  function TestNameError(name: string): TestSuiteError {
    if IsSpecialTestName(ToLower(Trim(name))) then SpecialNameInList(name) else NotSuiteOrScenario(name)
  }

  /** How far the loop over the comma-separated names gets: the index of
      the first name that is not a test file name, or the number of names. */
  function FirstBadTestName(names: seq<string>): (i: nat)
    ensures i <= |names|
    ensures forall j :: 0 <= j < i ==> IsTestFileName(names[j])
    ensures i < |names| ==> !IsTestFileName(names[i])
  {
    FirstFailingFrom(names, 0, IsTestFileName)
  }

  /** The index of the first name from `from` on that `accepts` rejects, or
      the number of names. */
  function FirstFailingFrom(names: seq<string>, from: nat, accepts: string -> bool): (i: nat)
    requires from <= |names|
    ensures from <= i <= |names|
    ensures forall j :: from <= j < i ==> accepts(names[j])
    ensures i < |names| ==> !accepts(names[i])
    decreases |names| - from
  {
    if from == |names| || !accepts(names[from]) then from
    else FirstFailingFrom(names, from + 1, accepts)
  }

  /** The loop over the comma-separated names: it stops at the first name
      that fails and reports that one. */
  function CheckTestNames(names: seq<string>): (r: Outcome<TestSuiteError>)
    ensures r.Pass? <==> forall i :: 0 <= i < |names| ==> IsTestFileName(names[i])
    ensures r.Fail? ==> r.error == TestNameError(names[FirstBadTestName(names)])
  {
    var i := FirstBadTestName(names);
    if i == |names| then Pass else Fail(TestNameError(names[i]))
  }

  /** The selector is one sentinel once split on commas. */
  predicate IsSentinelSelector(trimmed: string) {
    var nameList := Split(trimmed, ',');
    |nameList| == 1 && IsSpecialTestName(Trim(nameList[0]))
  }

  /** The test suite rules shared by the form check and the pre-build check,
      on an already trimmed entry: it must not be empty; one sentinel on its
      own is accepted; otherwise every comma-separated name must be a test
      file name, and the first that is not is reported. */
  function CheckTestSuite(trimmed: string): (r: Outcome<TestSuiteError>)
    ensures r == Fail(EmptyTestSuite) <==> trimmed == ""
    ensures r.Pass? <==> (trimmed != "" && (IsSentinelSelector(trimmed)
      || forall i :: 0 <= i < |Split(trimmed, ',')| ==> IsTestFileName(Split(trimmed, ',')[i])))
    ensures r.Fail? && trimmed != "" ==>
      (var nameList := Split(trimmed, ',');
       var i := FirstBadTestName(nameList);
       i < |nameList| && r.error == TestNameError(nameList[i]))
  {
    if trimmed == "" then Fail(EmptyTestSuite)
    else
      var nameList := Split(trimmed, ',');
      if |nameList| == 1 && IsSpecialTestName(Trim(nameList[0])) then Pass
      else CheckTestNames(nameList)
  }

  /** doCheckTestSuite: the test suite rules on the trimmed value. */
  function DoCheckTestSuite(value: string): (r: Outcome<TestSuiteError>)
    ensures r.Pass? <==> (Trim(value) != "" && (IsSentinelSelector(Trim(value))
      || forall i :: 0 <= i < |Split(Trim(value), ',')| ==> IsTestFileName(Split(Trim(value), ',')[i])))
    ensures r == Fail(EmptyTestSuite) <==> Trim(value) == ""
  {
    CheckTestSuite(Trim(value))
  }

  /** A sentinel on its own, in any case, is an accepted selector. */
  lemma SpecialSelectorAccepted(name: string)
    requires IsSpecialTestName(name)
    ensures CheckTestSuite(name) == Pass
  {
    SpecialNameShape(name);
    TrimKeepsTrimmed(name);
  }

  lemma SpecialNameShape(name: string)
    requires IsSpecialTestName(name)
    ensures name != "" && IsTrimmedForm(name) && ',' !in name
    ensures Split(name, ',') == [name]
  {
    SpecialTestNameLetters(name);
  }

  /** Lower-casing a name does not change whether it is a sentinel. */
  lemma SpecialIgnoresLowering(name: string)
    ensures IsSpecialTestName(ToLower(name)) <==> IsSpecialTestName(name)
  {
    forall i | 0 <= i < |name| ensures UpperChar(ToLower(name)[i]) == UpperChar(name[i]) { }
  }

  lemma LowerCaseUnchanged(s: string)
    requires forall i :: 0 <= i < |s| ==> !('A' <= s[i] <= 'Z')
    ensures ToLower(s) == s
  {
  }

  /** A trimmed lower-case name with a test suite suffix is a test file name. */
  lemma SuiteFileName(name: string)
    requires IsTrimmedForm(name) && |name| >= |TEST_SUITE_SUFFIX|
    requires forall i :: 0 <= i < |name| ==> !('A' <= name[i] <= 'Z')
    requires name[|name| - |TEST_SUITE_SUFFIX|..] == TEST_SUITE_SUFFIX
    ensures IsTestFileName(name)
  {
    TrimKeepsTrimmed(name);
    LowerCaseUnchanged(name);
    assert name[|name| - |TEST_SUITE_SUFFIX|] == '.';
    if IsSpecialTestName(name) {
      SpecialTestNameLetters(name);
    }
  }

  /** A sentinel followed by a comma and a further name is rejected, naming
      the sentinel. */
  lemma SpecialNameInListRejected(first: string, second: string)
    requires IsSpecialTestName(first)
    requires ',' !in second && second != ""
    ensures CheckTestSuite(first + [','] + second) == Fail(SpecialNameInList(first))
  {
    var s := first + [','] + second;
    SpecialNameShape(first);
    assert s + Repeat(',', 0) == s;
    SplitTwoWithTrailing(first, second, ',', 0);
    TrimKeepsTrimmed(first);
    SpecialIgnoresLowering(first);
    assert !IsTestFileName(first);
  }

  /** A selector made of the separator alone splits into no names, so the
      per-name loop has nothing to reject. */
  lemma CommaOnlySelectorAccepted()
    ensures CheckTestSuite(",") == Pass
  {
    var segs := Segments(",", ',');
    assert IndexOf(",", ',') == 0;
    assert ","[1..] == "";
    assert segs == ["", ""];
    assert DropTrailingEmpty(["", ""]) == [];
  }

  // ---------------------------------------------------------------------------
  // Field checks of the configuration form
  // ---------------------------------------------------------------------------

  /** doCheckHostPort: the same checks as validateHostPort, each failure
      reported with its own message. */
  function DoCheckHostPort(value: Option<string>): (r: Outcome<HostPortCheck>)
    ensures r.Pass? <==> ValidateHostPort(value).Pass?
    ensures r.Fail? ==> r.error != HostPortOk
  {
    var check := ClassifyHostPort(value);
    if check == HostPortOk then Pass else Fail(check)
  }

  datatype FieldError =
    | HlqLengthError
    | HlqSpacesError
    | HlqInvalidError
    | CcRepoLengthError
    | CcRepoSpacesError
    | CcSystemLengthError
    | CcTestIdLengthError
    | LoginCredentialError

  /** The first character DATASET_HLQ_PATTERN allows. */
  predicate IsHlqLeadChar(c: char) {
    'A' <= c <= 'Z' || c == '#' || c == '@' || c == '$'
  }

  /** The later characters DATASET_HLQ_PATTERN allows: a word character or
      one of `#@$-`. */
  predicate IsHlqChar(c: char) {
    'A' <= c <= 'Z' || 'a' <= c <= 'z' || '0' <= c <= '9' || c == '_'
    || c == '#' || c == '@' || c == '$' || c == '-'
  }

  /** String.matches(DATASET_HLQ_PATTERN): the whole value is one lead
      character followed by one to seven later characters. */
  predicate MatchesHlqPattern(s: string) {
    2 <= |s| <= 8 && IsHlqLeadChar(s[0]) && forall i :: 1 <= i < |s| ==> IsHlqChar(s[i])
  }

  /** doCheckHlq: blank passes; otherwise, trimmed and upper-cased, the value
      must have two to seven characters, a valid first character and valid
      later ones. The space check only changes the message. */
  function DoCheckHlq(value: string): (r: Outcome<FieldError>)
    ensures r.Pass? <==> (var t := ToUpper(Trim(value));
      t == "" || (2 <= |t| <= 7 && IsHlqLeadChar(t[0]) && forall i :: 1 <= i < |t| ==> IsHlqChar(t[i])))
    ensures r == Fail(HlqSpacesError) <==> (var t := ToUpper(Trim(value)); |t| < 8 && ' ' in t)
  {
    HlqOutcome(ToUpper(Trim(value)))
  }

  /** The checks of doCheckHlq on the trimmed, upper-cased value. */
  function HlqOutcome(trimmedValue: string): (r: Outcome<FieldError>)
    ensures r.Pass? <==> (trimmedValue == "" || (2 <= |trimmedValue| <= 7 && IsHlqLeadChar(trimmedValue[0])
      && forall i :: 1 <= i < |trimmedValue| ==> IsHlqChar(trimmedValue[i])))
    ensures r == Fail(HlqSpacesError) <==> (|trimmedValue| < 8 && ' ' in trimmedValue)
  {
    if |trimmedValue| != 0 then
      if |trimmedValue| >= 8 then Fail(HlqLengthError)
      else if ' ' in trimmedValue then
        assert !MatchesHlqPattern(trimmedValue) by {
          var i :| 0 <= i < |trimmedValue| && trimmedValue[i] == ' ';
        }
        Fail(HlqSpacesError)
      else if !MatchesHlqPattern(trimmedValue) then Fail(HlqInvalidError)
      else Pass
    else Pass
  }

  /** doCheckCcRepo: at most 44 characters after trimming, none a space. */
  function DoCheckCcRepo(value: string): (r: Outcome<FieldError>)
    ensures r.Pass? <==> |Trim(value)| <= MAX_CC_REPO_LENGTH && ' ' !in Trim(value)
    ensures r == Fail(CcRepoSpacesError) ==> |Trim(value)| <= MAX_CC_REPO_LENGTH
  {
    var trimmedValue := Trim(value);
    if |trimmedValue| > MAX_CC_REPO_LENGTH then Fail(CcRepoLengthError)
    else if ' ' in trimmedValue then Fail(CcRepoSpacesError)
    else Pass
  }

  /** doCheckCcSystem: at most 16 characters after trimming. */
  function DoCheckCcSystem(value: string): (r: Outcome<FieldError>)
    ensures r.Pass? <==> |Trim(value)| <= MAX_CC_ID_LENGTH
    ensures r.Fail? ==> r.error == CcSystemLengthError
  {
    if |Trim(value)| > MAX_CC_ID_LENGTH then Fail(CcSystemLengthError) else Pass
  }

  /** doCheckCcTestId: at most 16 characters after trimming. */
  function DoCheckCcTestId(value: string): (r: Outcome<FieldError>)
    ensures r.Pass? <==> |Trim(value)| <= MAX_CC_ID_LENGTH
    ensures r.Fail? ==> r.error == CcTestIdLengthError
  {
    if |Trim(value)| > MAX_CC_ID_LENGTH then Fail(CcTestIdLengthError) else Pass
  }

  /** doCheckCredentialsId: only the empty id is rejected. */
  function DoCheckCredentialsId(value: string): (r: Outcome<FieldError>)
    ensures r.Pass? <==> value != ""
  {
    if EqualsIgnoreCase(value, "") then Fail(LoginCredentialError) else Pass
  }

  // ---------------------------------------------------------------------------
  // The pre-build check
  // ---------------------------------------------------------------------------

  datatype ParameterError =
    | MissingCredentials
    | MissingProjectFolder
    | InvalidTestSuite(error: TestSuiteError)
    | MissingJcl
    | NullHlqDereference

  /** validateParameters as the source has it: the credential must resolve,
      the project folder must be set, the selector must pass the test suite
      rules, and the JCL must be set. A selector that is one sentinel returns
      before the JCL is looked at, and the HLQ is dereferenced although it is
      null until its setter has run. */
  function ValidateParametersAsWritten(settings: UnitTestSettings, credentials: seq<Credential>)
    : (r: Outcome<ParameterError>)
    ensures r == Fail(MissingCredentials) <==> LastWithId(credentials, settings.credentialsId).None?
    ensures r == Fail(MissingProjectFolder) <==>
      LastWithId(credentials, settings.credentialsId).Some? && settings.projectFolder == ""
    ensures (r.Fail? && r.error.InvalidTestSuite?) <==>
      LastWithId(credentials, settings.credentialsId).Some? && settings.projectFolder != ""
      && CheckTestSuite(settings.testSuite).Fail?
    ensures r == Fail(MissingJcl) <==>
      LastWithId(credentials, settings.credentialsId).Some? && settings.projectFolder != ""
      && CheckTestSuite(settings.testSuite).Pass? && !IsSentinelSelector(settings.testSuite) && settings.jcl == ""
    ensures r == Fail(NullHlqDereference) <==>
      LastWithId(credentials, settings.credentialsId).Some? && settings.projectFolder != ""
      && CheckTestSuite(settings.testSuite).Pass? && !IsSentinelSelector(settings.testSuite) && settings.jcl != ""
      && settings.hlq.None?
  {
    if LastWithId(credentials, settings.credentialsId).None? then Fail(MissingCredentials)
    else if settings.projectFolder == "" then Fail(MissingProjectFolder)
    else if settings.testSuite == "" then Fail(InvalidTestSuite(EmptyTestSuite))
    else
      var nameList := Split(settings.testSuite, ',');
      if |nameList| == 1 && IsSpecialTestName(Trim(nameList[0])) then Pass
      else if CheckTestNames(nameList).Fail? then Fail(InvalidTestSuite(CheckTestNames(nameList).error))
      else if settings.jcl == "" then Fail(MissingJcl)
      else if settings.hlq.None? then Fail(NullHlqDereference)
      else Pass
  }

  /** validateParameters as evidently intended: the same checks, in the same
      order, with the JCL required for every selector and an unset HLQ
      treated like an empty one. */
  function ValidateParameters(settings: UnitTestSettings, credentials: seq<Credential>)
    : (r: Outcome<ParameterError>)
    ensures r.Pass? <==>
      LastWithId(credentials, settings.credentialsId).Some? && settings.projectFolder != ""
      && CheckTestSuite(settings.testSuite).Pass? && settings.jcl != ""
    ensures r == Fail(MissingCredentials) <==> LastWithId(credentials, settings.credentialsId).None?
    ensures r == Fail(MissingProjectFolder) <==>
      LastWithId(credentials, settings.credentialsId).Some? && settings.projectFolder == ""
    ensures (r.Fail? && r.error.InvalidTestSuite?) <==>
      LastWithId(credentials, settings.credentialsId).Some? && settings.projectFolder != ""
      && CheckTestSuite(settings.testSuite).Fail?
    ensures r == Fail(MissingJcl) <==>
      LastWithId(credentials, settings.credentialsId).Some? && settings.projectFolder != ""
      && CheckTestSuite(settings.testSuite).Pass? && settings.jcl == ""
    ensures r != Fail(NullHlqDereference)
  {
    if LastWithId(credentials, settings.credentialsId).None? then Fail(MissingCredentials)
    else if settings.projectFolder == "" then Fail(MissingProjectFolder)
    else if CheckTestSuite(settings.testSuite).Fail? then Fail(InvalidTestSuite(CheckTestSuite(settings.testSuite).error))
    else if settings.jcl == "" then Fail(MissingJcl)
    else Pass
  }

  /** The checks agree wherever the source neither skips the JCL nor meets a
      null HLQ; an accepted configuration is accepted by both. */
  lemma ValidateParametersAgree(settings: UnitTestSettings, credentials: seq<Credential>)
    requires settings.hlq.Some? && !IsSentinelSelector(settings.testSuite)
    ensures ValidateParametersAsWritten(settings, credentials) == ValidateParameters(settings, credentials)
  {
  }

  /** The source throws for a complete configuration whose HLQ was never set. */
  lemma NullHlqRejectedAsWritten(credential: Credential)
    ensures var settings := UnitTestSettings("conn", None, credential.id, "Project", "ab.testsuite",
                                             "Runner.jcl", None, true, true, None, None, None, TOTALTEST, true);
      ValidateParametersAsWritten(settings, [credential]) == Fail(NullHlqDereference)
      && ValidateParameters(settings, [credential]) == Pass
  {
    var name := "ab.testsuite";
    assert ',' !in name;
    assert Split(name, ',') == [name];
    assert name[|name| - |TEST_SUITE_SUFFIX|..] == TEST_SUITE_SUFFIX;
    SuiteFileName(name);
    assert !IsSentinelSelector(name) by {
      TrimKeepsTrimmed(name);
      assert !IsSpecialTestName(name);
    }
    assert CheckTestNames([name]) == Pass;
  }

  /** The source accepts a sentinel selector with no JCL at all. */
  lemma SentinelSkipsJclAsWritten(credential: Credential)
    ensures var settings := UnitTestSettings("conn", None, credential.id, "Project", "ALL_SCENARIOS",
                                             "", Some(""), true, true, None, None, None, TOTALTEST, true);
      ValidateParametersAsWritten(settings, [credential]) == Pass
      && ValidateParameters(settings, [credential]) == Fail(MissingJcl)
  {
    assert IsSpecialTestName("ALL_SCENARIOS");
    SpecialNameShape("ALL_SCENARIOS");
    SpecialSelectorAccepted("ALL_SCENARIOS");
    TrimKeepsTrimmed("ALL_SCENARIOS");
  }
}
