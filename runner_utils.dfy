/** Static helpers shared by both runners and both builders: splitting a
    `host:port` value, escaping an argument for the CLI script, recognising
    special and list test selectors, validating `host:port`, and picking the
    login credential for an id. */
module TotalTestRunnerUtils {
  import opened Wrappers
  import opened JavaText

  const ALL_SCENARIOS: string := "ALL_SCENARIOS"
  const ALL_SUITES: string := "ALL_SUITES"
  const AUTO_SELECT: string := "AUTO_SELECT"

  // ---------------------------------------------------------------------------
  // host:port
  // ---------------------------------------------------------------------------

  /** The value has a colon, and its first colon is not the first character. */
  predicate HasHostSeparator(hostPort: string) {
    ':' in hostPort && hostPort[0] != ':'
  }

  /** getHost: the text before the first colon when that colon is past index
      0; otherwise the whole value. */
  function GetHost(hostPort: string): (host: string)
    ensures HasHostSeparator(hostPort) ==>
      host != "" && ':' !in host && |host| < |hostPort| && hostPort[..|host| + 1] == host + [':']
    ensures !HasHostSeparator(hostPort) ==> host == hostPort
  {
    var i := IndexOf(hostPort, ':');
    if i > 0 then hostPort[..i] else hostPort
  }

  /** getPort: the text after the first colon when that colon is past index
      0; otherwise the whole value. */
  function GetPort(hostPort: string): (port: string)
    ensures HasHostSeparator(hostPort) ==> hostPort == GetHost(hostPort) + [':'] + port
    ensures !HasHostSeparator(hostPort) ==> port == hostPort
  {
    var i := IndexOf(hostPort, ':');
    if i > 0 then hostPort[i + 1..] else hostPort
  }

  /** A host without colons joined to any port splits back into the two. */
  lemma HostPortRoundTrip(host: string, port: string)
    requires host != "" && ':' !in host
    ensures GetHost(host + [':'] + port) == host
    ensures GetPort(host + [':'] + port) == port
  {
    IndexOfAfterPrefix(host, ':', port);
    var s := host + [':'] + port;
    assert s[..|host|] == host;
    assert s[|host| + 1..] == port;
  }

  // ---------------------------------------------------------------------------
  // Escaping for the CLI script
  // ---------------------------------------------------------------------------

  /** Every double quote doubled, every other character kept in order. */
  function Escape(s: string): (r: string)
    ensures |r| >= |s|
  {
    if |s| == 0 then []
    else (if s[0] == '"' then ['"', '"'] else [s[0]]) + Escape(s[1..])
  }

  /** Collapses each pair of double quotes back into one. */
  function Unescape(r: string): string {
    if |r| == 0 then []
    else if |r| >= 2 && r[0] == '"' && r[1] == '"' then ['"'] + Unescape(r[2..])
    else [r[0]] + Unescape(r[1..])
  }

  /** Every double quote of `r` belongs to a pair. */
  predicate IsEscaped(r: string) {
    if |r| == 0 then true
    else if r[0] == '"' then |r| >= 2 && r[1] == '"' && IsEscaped(r[2..])
    else IsEscaped(r[1..])
  }

  lemma {:induction false} UnescapeEscape(s: string)
    ensures Unescape(Escape(s)) == s
  {
    if s != [] {
      UnescapeEscape(s[1..]);
      var head := if s[0] == '"' then ['"', '"'] else [s[0]];
      var e := head + Escape(s[1..]);
      if s[0] == '"' {
        assert e[2..] == Escape(s[1..]);
      } else {
        assert e[1..] == Escape(s[1..]);
      }
      assert [s[0]] + s[1..] == s;
    }
  }

  lemma {:induction false} EscapeIsEscaped(s: string)
    ensures IsEscaped(Escape(s))
  {
    if s != [] {
      EscapeIsEscaped(s[1..]);
      var head := if s[0] == '"' then ['"', '"'] else [s[0]];
      var e := head + Escape(s[1..]);
      if s[0] == '"' {
        assert e[2..] == Escape(s[1..]);
      } else {
        assert e[1..] == Escape(s[1..]);
      }
    }
  }

  /** On escaped text, unescaping and escaping again gives the text back: the
      escaper is a bijection onto the escaped strings. */
  lemma {:induction false} EscapeUnescape(r: string)
    requires IsEscaped(r)
    ensures Escape(Unescape(r)) == r
    decreases |r|
  {
    if r != [] {
      if r[0] == '"' {
        EscapeUnescape(r[2..]);
        var u := ['"'] + Unescape(r[2..]);
        assert u[1..] == Unescape(r[2..]);
        assert r == ['"', '"'] + r[2..];
      } else {
        EscapeUnescape(r[1..]);
        var u := [r[0]] + Unescape(r[1..]);
        assert u[1..] == Unescape(r[1..]);
        assert r == [r[0]] + r[1..];
      }
    }
  }

  lemma {:induction false} EscapeWithoutQuotes(s: string)
    requires '"' !in s
    ensures Escape(s) == s
  {
    if s != [] {
      assert '"' !in s[1..];
      EscapeWithoutQuotes(s[1..]);
      assert [s[0]] + s[1..] == s;
    }
  }

  lemma {:induction false} EscapeConcat(a: string, b: string)
    ensures Escape(a + b) == Escape(a) + Escape(b)
  {
    if a != [] {
      assert (a + b)[0] == a[0];
      assert (a + b)[1..] == a[1..] + b;
      EscapeConcat(a[1..], b);
    } else {
      assert a + b == b;
    }
  }

  /** escapeForScript: null stays null; otherwise the escaped text, which
      unescapes to the input and has every quote paired. */
  function EscapeForScript(input: Option<string>): (output: Option<string>)
    ensures output.None? <==> input.None?
    ensures input.Some? ==> Unescape(output.value) == input.value && IsEscaped(output.value)
    ensures input.Some? && '"' !in input.value ==> output == input
  {
    match input
    case None => None
    case Some(s) =>
      UnescapeEscape(s);
      EscapeIsEscaped(s);
      if '"' !in s then EscapeWithoutQuotes(s); Some(Escape(s)) else Some(Escape(s))
  }

  // ---------------------------------------------------------------------------
  // Test selectors
  // ---------------------------------------------------------------------------

  /** isSpecicalTestName (the callers' isAllTestScenariosOrSuites): one of
      the three sentinels, ignoring case. */
  predicate IsSpecialTestName(testName: string)
    ensures IsSpecialTestName(testName) <==>
      ToUpper(testName) in {ALL_SCENARIOS, ALL_SUITES, AUTO_SELECT}
  {
    SpecialNamesAreUpperNames();
    UpperNameIsUpper(ALL_SCENARIOS);
    UpperNameIsUpper(ALL_SUITES);
    UpperNameIsUpper(AUTO_SELECT);
    EqualsIgnoreCaseIsUpperEquality(ALL_SCENARIOS, testName);
    EqualsIgnoreCaseIsUpperEquality(ALL_SUITES, testName);
    EqualsIgnoreCaseIsUpperEquality(AUTO_SELECT, testName);
    EqualsIgnoreCase(ALL_SCENARIOS, testName) || EqualsIgnoreCase(ALL_SUITES, testName)
    || EqualsIgnoreCase(AUTO_SELECT, testName)
  }

  /** isTestNameList: the entry holds a comma or a wildcard; an entry that
      is not a list is one name, which splitting on commas leaves whole. */
  predicate IsTestNameList(testSuiteEntry: string)
    ensures !IsTestNameList(testSuiteEntry) ==> Split(testSuiteEntry, ',') == [testSuiteEntry]
  {
    ',' in testSuiteEntry || '?' in testSuiteEntry || '*' in testSuiteEntry
  }

  /** Upper-case letters and underscores only. */
  predicate IsUpperName(s: string) {
    forall i :: 0 <= i < |s| ==> ('A' <= s[i] <= 'Z' || s[i] == '_')
  }

  lemma UpperNameIsUpper(s: string)
    requires IsUpperName(s)
    ensures ToUpper(s) == s
  {
  }

  lemma SpecialNamesAreUpperNames()
    ensures IsUpperName(ALL_SCENARIOS) && IsUpperName(ALL_SUITES) && IsUpperName(AUTO_SELECT)
  {
  }

  lemma SameUpperNameLetters(name: string, testName: string)
    requires IsUpperName(name) && EqualsIgnoreCase(name, testName)
    ensures forall i :: 0 <= i < |testName| ==>
      'A' <= testName[i] <= 'Z' || 'a' <= testName[i] <= 'z' || testName[i] == '_'
  {
    forall i | 0 <= i < |testName|
      ensures 'A' <= testName[i] <= 'Z' || 'a' <= testName[i] <= 'z' || testName[i] == '_'
    {
      assert UpperChar(name[i]) == UpperChar(testName[i]);
    }
  }

  /** A special name is made of letters and underscores only. */
  lemma SpecialTestNameLetters(testName: string)
    requires IsSpecialTestName(testName)
    ensures testName != ""
    ensures forall i :: 0 <= i < |testName| ==>
      'A' <= testName[i] <= 'Z' || 'a' <= testName[i] <= 'z' || testName[i] == '_'
  {
    SpecialNamesAreUpperNames();
    if EqualsIgnoreCase(ALL_SCENARIOS, testName) {
      SameUpperNameLetters(ALL_SCENARIOS, testName);
    } else if EqualsIgnoreCase(ALL_SUITES, testName) {
      SameUpperNameLetters(ALL_SUITES, testName);
    } else {
      SameUpperNameLetters(AUTO_SELECT, testName);
    }
  }

  /** No selector is both a special name and a list. */
  lemma SpecialTestNameIsNotList(testName: string)
    requires IsSpecialTestName(testName)
    ensures !IsTestNameList(testName)
  {
    SpecialTestNameLetters(testName);
  }

  // ---------------------------------------------------------------------------
  // host:port validation
  // ---------------------------------------------------------------------------

  /** The checks a `host:port` value goes through, each with its own outcome. */
  datatype HostPortCheck =
    | HostPortOk
    | EmptyHostPort      // nothing left after trimming
    | WrongPartCount     // splitting on ':' did not give two parts
    | MissingHost        // the first part is blank
    | MissingPort        // the second part is blank
    | NonNumericPort     // the trimmed port holds a non-digit

  /** The sequence of checks of validateHostPort, in order; the first that
      fails decides. */
  function ClassifyHostPort(hostPortValue: Option<string>): (r: HostPortCheck)
    ensures r == EmptyHostPort <==> TrimToEmpty(hostPortValue) == ""
  {
    var trimmed := TrimToEmpty(hostPortValue);
    if |trimmed| == 0 then EmptyHostPort
    else
      var parts := Split(trimmed, ':');
      if |parts| != 2 then WrongPartCount
      else if Trim(parts[0]) == "" then MissingHost
      else if Trim(parts[1]) == "" then MissingPort
      else if !IsNumeric(Trim(parts[1])) then NonNumericPort
      else HostPortOk
  }

  /** The messages validateHostPort throws with. */
  datatype HostPortError = HostPortEmptyError | InvalidHostPortValue | InvalidPortError

  /** validateHostPort: the blank value, the three shape faults and the bad
      port are reported with three different messages. */
  function ValidateHostPort(hostPortValue: Option<string>): (r: Outcome<HostPortError>)
    ensures r.Pass? <==> ClassifyHostPort(hostPortValue) == HostPortOk
    ensures r == Fail(HostPortEmptyError) <==> TrimToEmpty(hostPortValue) == ""
    ensures r == Fail(InvalidPortError) <==> ClassifyHostPort(hostPortValue) == NonNumericPort
  {
    match ClassifyHostPort(hostPortValue)
    case HostPortOk => Pass
    case EmptyHostPort => Fail(HostPortEmptyError)
    case NonNumericPort => Fail(InvalidPortError)
    case _ => Fail(InvalidHostPortValue)
  }

  /** An accepted value is a non-blank host, a colon, a non-blank all-digit
      port and nothing after it but colons; getHost and getPort read that
      host and that port (with the trailing colons). */
  lemma AcceptedHostPortShape(hostPortValue: Option<string>)
    requires ClassifyHostPort(hostPortValue) == HostPortOk
    ensures var t := TrimToEmpty(hostPortValue);
      var parts := Split(t, ':');
      |parts| == 2 && ':' !in parts[0] && ':' !in parts[1] &&
      t == parts[0] + [':'] + parts[1] + Repeat(':', |Segments(t, ':')| - 2) &&
      HasHostSeparator(t) && GetHost(t) == parts[0] &&
      GetPort(t) == parts[1] + Repeat(':', |Segments(t, ':')| - 2) &&
      Trim(GetHost(t)) != "" && Trim(parts[1]) != "" && IsNumeric(Trim(parts[1]))
  {
    var t := TrimToEmpty(hostPortValue);
    var parts := Split(t, ':');
    assert |parts| == 2 && Trim(parts[0]) != "" && Trim(parts[1]) != "" && IsNumeric(Trim(parts[1]));
    SplitPartsReadBack(t, parts[0], parts[1]);
  }

  lemma SplitPartsReadBack(t: string, host: string, port: string)
    requires Split(t, ':') == [host, port] && Trim(host) != ""
    ensures ':' !in host && ':' !in port
    ensures t == host + [':'] + port + Repeat(':', |Segments(t, ':')| - 2)
    ensures HasHostSeparator(t) && GetHost(t) == host
    ensures GetPort(t) == port + Repeat(':', |Segments(t, ':')| - 2)
  {
    SplitTwoShape(t, ':');
    var tail := port + Repeat(':', |Segments(t, ':')| - 2);
    assert t == host + [':'] + tail;
    assert host != "";
    HostPortRoundTrip(host, tail);
  }

  /** Conversely, every such value that is already trimmed is accepted. */
  lemma HostPortShapeAccepted(host: string, port: string, extraColons: nat)
    requires ':' !in host && ':' !in port
    requires Trim(host) != "" && Trim(port) != "" && IsNumeric(Trim(port))
    requires IsTrimmedForm(host + [':'] + port + Repeat(':', extraColons))
    ensures ClassifyHostPort(Some(host + [':'] + port + Repeat(':', extraColons))) == HostPortOk
  {
    var s := host + [':'] + port + Repeat(':', extraColons);
    TrimKeepsTrimmed(s);
    SplitTwoWithTrailing(host, port, ':', extraColons);
  }

  /** Trailing colons slip through the validator. */
  lemma TrailingColonAccepted()
    ensures ClassifyHostPort(Some("cw01:30947:")) == HostPortOk
  {
    var s := "cw01" + [':'] + "30947" + Repeat(':', 1);
    assert Repeat(':', 1) == [':'];
    assert s == "cw01:30947:";
    assert Trim("cw01") == "cw01" by { TrimKeepsTrimmed("cw01"); }
    assert Trim("30947") == "30947" by { TrimKeepsTrimmed("30947"); }
    HostPortShapeAccepted("cw01", "30947", 1);
  }

  /** A leading colon leaves the host blank. */
  lemma LeadingColonRejected()
    ensures ClassifyHostPort(Some(":30947")) == MissingHost
  {
    SplitTwoWithTrailing("", "30947", ':', 0);
    assert "" + [':'] + "30947" + Repeat(':', 0) == ":30947";
  }

  // ---------------------------------------------------------------------------
  // Credentials
  // ---------------------------------------------------------------------------

  /** A username/password credential as the credentials store lists it. */
  datatype Credential = Credential(id: string, username: string, password: string)

  /** The last credential in `credentials` whose id is `id`, if any. */
  function LastWithId(credentials: seq<Credential>, id: string): (r: Option<Credential>)
    ensures r.None? <==> forall k :: 0 <= k < |credentials| ==> credentials[k].id != id
    ensures r.Some? ==> r.value.id == id
    ensures r.Some? ==> (exists k :: 0 <= k < |credentials| && credentials[k] == r.value &&
                           forall j :: k < j < |credentials| ==> credentials[j].id != id)
  {
    if credentials == [] then None
    else
      var last := |credentials| - 1;
      if credentials[last].id == id then Some(credentials[last])
      else
        var r := LastWithId(credentials[..last], id);
        assert forall k :: 0 <= k < last ==> credentials[..last][k] == credentials[k];
        r
  }

  /** getLoginInformation: scans the store's list, keeping each credential
      whose id matches, so the last match wins; None when nothing matches. */
  method GetLoginInformation(credentials: seq<Credential>, credentialsId: string)
    returns (credential: Option<Credential>)
    ensures credential == LastWithId(credentials, credentialsId)
  {
    credential := None;
    for i := 0 to |credentials|
      invariant credential == LastWithId(credentials[..i], credentialsId)
    {
      assert credentials[..i + 1][..i] == credentials[..i];
      if credentials[i].id == credentialsId {
        credential := Some(credentials[i]);
      }
    }
    assert credentials[..|credentials|] == credentials;
  }
}
