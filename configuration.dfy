/** Startup configuration (config.go): the record read from the environment is
    defaulted and validated field by field; a missing required value or an unknown
    security mode is fatal. */
module Configuration {
  import opened Wrappers

  /** The directory connection's security mode. */
  datatype SecurityType = SecurityNone | SecurityTLS | SecurityStartTLS

  /** `Config`, with the fields in the order the source declares them. `ldapSecurity`
      is the configured text; `securityMode` is the mode derived from it. Intervals
      and durations are in minutes, the code length in characters. */
  datatype Config = Config(
    ldapServer: string,
    ldapPort: int,
    ldapBaseDN: string,
    ldapGroup: string,
    ldapSecurity: string,
    securityMode: SecurityType,
    codeInterval: int,
    codeLength: int,
    sessionDuration: int,
    listenAddr: string,
    prefix: string,
    debug: bool)

  /** Why startup aborts: `SAFEEXAM_<name> must be configured`, or an invalid
      `SAFEEXAM_LDAPSECURITY` value. */
  datatype FatalError = MustBeConfigured(name: string) | InvalidSecurity(value: string)

  /** The end of startup: the process aborts, or runs with the normalised record. */
  datatype Startup = Fatal(error: FatalError) | Ready(config: Config)

  const DefaultLDAPPort := 389
  const DefaultCodeInterval := 12
  const DefaultCodeLength := 3
  const DefaultSessionDuration := 60

  /** `checkEmpty`: an empty value is fatal, naming the variable. */
  function CheckEmpty(val: string, name: string): (r: Option<FatalError>)
    ensures r.Some? <==> val == ""
    ensures r.Some? ==> r.value == MustBeConfigured(name)
  {
    if val == "" then Some(MustBeConfigured(name)) else None
  }

  /** Case folding of one character. Only ASCII letters are folded: every keyword
      matched below is ASCII lower case, and the only non-ASCII characters whose lower
      case is ASCII (the Kelvin sign and the dotted capital I) fold to letters that
      none of the keywords contains. */
  function LowerChar(c: char): char {
    if 'A' <= c <= 'Z' then (c as int - 'A' as int + 'a' as int) as char else c
  }

  /** `strings.ToLower`, as far as the keyword match can tell: every character is
      folded on its own and the length is kept. */
  function ToLower(s: string): (r: string)
    ensures |r| == |s|
    ensures forall i :: 0 <= i < |s| ==> r[i] == LowerChar(s[i])
    decreases |s|
  {
    if s == [] then [] else [LowerChar(s[0])] + ToLower(s[1..])
  }

  /** The `switch` on the lower-cased security text: "" and "none", "tls", "starttls";
      anything else is refused. */
  function ParseSecurity(s: string): (r: Option<SecurityType>)
    ensures r == Some(SecurityNone) <==> ToLower(s) == "" || ToLower(s) == "none"
    ensures r == Some(SecurityTLS) <==> ToLower(s) == "tls"
    ensures r == Some(SecurityStartTLS) <==> ToLower(s) == "starttls"
    ensures r.None? <==> ToLower(s) !in {"", "none", "tls", "starttls"}
  {
    var lowered := ToLower(s);
    if lowered == "" || lowered == "none" then Some(SecurityNone)
    else if lowered == "tls" then Some(SecurityTLS)
    else if lowered == "starttls" then Some(SecurityStartTLS)
    else None
  }

  /** The match ignores case but nothing else: no trimming, no partial match. */
  lemma SecurityExamples()
    ensures ParseSecurity("StartTLS") == Some(SecurityStartTLS)
    ensures ParseSecurity("TLS") == Some(SecurityTLS)
    ensures ParseSecurity("None") == Some(SecurityNone)
    ensures ParseSecurity(" tls") == None
    ensures ParseSecurity("ssl") == None
  {
  }

  /** Go's `if v == 0 { v = d }`. */
  function Default(v: int, d: int): int { if v == 0 then d else v }

  /** What startup guarantees about the record it keeps running with. */
  predicate Normalized(c: Config) {
    && c.ldapServer != "" && c.ldapBaseDN != "" && c.listenAddr != ""
    && c.ldapPort != 0 && c.codeInterval != 0 && c.codeLength != 0 && c.sessionDuration != 0
    && ParseSecurity(c.ldapSecurity) == Some(c.securityMode)
  }

  /** The outcome of `init` on the record `envconfig` produced. */
  function Normalize(raw: Config): (r: Startup)
    // the fatal conditions, reported in the order the source tests them
    ensures r.Fatal? <==> raw.ldapServer == "" || raw.ldapBaseDN == "" || ParseSecurity(raw.ldapSecurity).None?
                          || raw.listenAddr == ""
    ensures raw.ldapServer == "" ==> r == Fatal(MustBeConfigured("LDAPSERVER"))
    ensures raw.ldapServer != "" && raw.ldapBaseDN == "" ==> r == Fatal(MustBeConfigured("LDAPBASEDN"))
    ensures raw.ldapServer != "" && raw.ldapBaseDN != "" && ParseSecurity(raw.ldapSecurity).None? ==>
              r == Fatal(InvalidSecurity(raw.ldapSecurity))
    ensures r.Fatal? && raw.ldapServer != "" && raw.ldapBaseDN != "" && ParseSecurity(raw.ldapSecurity).Some? ==>
              r == Fatal(MustBeConfigured("LISTENADDR"))
    ensures r.Ready? ==> Normalized(r.config)
    // a zero number takes its default; any other value, negative ones included, is kept
    ensures r.Ready? ==> r.config.ldapPort == (if raw.ldapPort == 0 then 389 else raw.ldapPort)
    ensures r.Ready? ==> r.config.codeInterval == (if raw.codeInterval == 0 then 12 else raw.codeInterval)
    ensures r.Ready? ==> r.config.codeLength == (if raw.codeLength == 0 then 3 else raw.codeLength)
    ensures r.Ready? ==> r.config.sessionDuration == (if raw.sessionDuration == 0 then 60 else raw.sessionDuration)
    // no string is rewritten, and only the derived mode is set
    ensures r.Ready? ==> && r.config.ldapServer == raw.ldapServer && r.config.ldapBaseDN == raw.ldapBaseDN
                         && r.config.ldapGroup == raw.ldapGroup && r.config.ldapSecurity == raw.ldapSecurity
                         && r.config.listenAddr == raw.listenAddr && r.config.prefix == raw.prefix
                         && r.config.debug == raw.debug
  {
    if raw.ldapServer == "" then Fatal(MustBeConfigured("LDAPSERVER"))
    else if raw.ldapBaseDN == "" then Fatal(MustBeConfigured("LDAPBASEDN"))
    else match ParseSecurity(raw.ldapSecurity)
      case None => Fatal(InvalidSecurity(raw.ldapSecurity))
      case Some(mode) =>
        if raw.listenAddr == "" then Fatal(MustBeConfigured("LISTENADDR"))
        else Ready(raw.(ldapPort := Default(raw.ldapPort, DefaultLDAPPort),
                        securityMode := mode,
                        codeInterval := Default(raw.codeInterval, DefaultCodeInterval),
                        codeLength := Default(raw.codeLength, DefaultCodeLength),
                        sessionDuration := Default(raw.sessionDuration, DefaultSessionDuration)))
  }

  /** A normalised record is left as it is, so normalisation is idempotent. */
  lemma NormalizedIsFixpoint(c: Config)
    requires Normalized(c)
    ensures Normalize(c) == Ready(c)
  {
  }

  lemma NormalizeIdempotent(raw: Config)
    ensures Normalize(raw).Ready? ==> Normalize(Normalize(raw).config) == Normalize(raw)
  {
    if Normalize(raw).Ready? {
      NormalizedIsFixpoint(Normalize(raw).config);
    }
  }

  /** `init`, one field at a time in the source's order, aborting at the first fatal
      condition. */
  method Init(raw: Config) returns (r: Startup)
    ensures r == Normalize(raw)
  {
    var config := raw;
    var failure := CheckEmpty(config.ldapServer, "LDAPSERVER");
    if failure.Some? {
      return Fatal(failure.value);
    }
    if config.ldapPort == 0 {
      config := config.(ldapPort := DefaultLDAPPort);
    }
    failure := CheckEmpty(config.ldapBaseDN, "LDAPBASEDN");
    if failure.Some? {
      return Fatal(failure.value);
    }
    var lowered := ToLower(config.ldapSecurity);
    if lowered == "" || lowered == "none" {
      config := config.(securityMode := SecurityNone);
    } else if lowered == "tls" {
      config := config.(securityMode := SecurityTLS);
    } else if lowered == "starttls" {
      config := config.(securityMode := SecurityStartTLS);
    } else {
      return Fatal(InvalidSecurity(config.ldapSecurity));
    }
    if config.codeInterval == 0 {
      config := config.(codeInterval := DefaultCodeInterval);
    }
    if config.codeLength == 0 {
      config := config.(codeLength := DefaultCodeLength);
    }
    if config.sessionDuration == 0 {
      config := config.(sessionDuration := DefaultSessionDuration);
    }
    failure := CheckEmpty(config.listenAddr, "LISTENADDR");
    if failure.Some? {
      return Fatal(failure.value);
    }
    r := Ready(config);
  }
}
