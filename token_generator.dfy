/**
 * Issuing short-lived credentials for the transcription service by assuming
 * a configured role. The generator's fields are fixed at construction; the
 * role-assumption call is a parameter that reports its own outcome.
 */
module TokenGeneration {
  import opened Common

  const MaxSessionDuration: int := 3600

  datatype TokenGenerator = TokenGenerator(
    roleArn: Option<string>,
    regionName: string,
    sessionDuration: int,
    stsAvailable: bool)

  /**
   * __init__: the role comes from the argument, else from TRANSCRIBE_ROLE_ARN
   * (`envRole`); the session length is capped at one hour; the STS client is
   * only created, and token generation only enabled, when a role is set and
   * the client can be created (`stsClientCreated`).
   */
  function NewTokenGenerator(roleArg: Option<string>, envRole: Option<string>, regionName: string,
                             sessionDuration: int, stsClientCreated: bool): (g: TokenGenerator)
    ensures g.roleArn == if Truthy(roleArg) then roleArg else envRole
    ensures g.regionName == regionName
    ensures g.sessionDuration <= MaxSessionDuration
    ensures sessionDuration <= MaxSessionDuration ==> g.sessionDuration == sessionDuration
    ensures sessionDuration >= MaxSessionDuration ==> g.sessionDuration == MaxSessionDuration
    ensures g.stsAvailable <==> Truthy(g.roleArn) && stsClientCreated
  {
    var role := if Truthy(roleArg) then roleArg else envRole;
    var duration := if sessionDuration < MaxSessionDuration then sessionDuration else MaxSessionDuration;
    if !Truthy(role) then TokenGenerator(role, regionName, duration, false)
    else TokenGenerator(role, regionName, duration, stsClientCreated)
  }

  function IsAvailable(g: TokenGenerator): bool
  {
    g.stsAvailable && g.roleArn.Some?
  }

  /** A generator is available exactly when a non-empty role was configured and STS could be reached. */
  lemma AvailableIffConfigured(roleArg: Option<string>, envRole: Option<string>, regionName: string,
                               sessionDuration: int, stsClientCreated: bool)
    ensures var g := NewTokenGenerator(roleArg, envRole, regionName, sessionDuration, stsClientCreated);
            IsAvailable(g) <==> Truthy(g.roleArn) && stsClientCreated
  {
  }

  /** The credentials STS returns; `expiration` is already in ISO 8601 form. */
  datatype IssuedCredentials = IssuedCredentials(
    accessKeyId: string,
    secretAccessKey: string,
    sessionToken: string,
    expiration: string)

  datatype AssumeRoleOutcome =
    | Issued(credentials: IssuedCredentials)
    /** A service error; `errorMessage` is the Error.Message of the response, if any. */
    | AssumeRoleClientError(errorMessage: Option<string>, text: string)
    | AssumeRoleException(text: string)

  /** The STS call: (role ARN, session name, duration in seconds) -> outcome. */
  type AssumeRole = (string, string, int) -> AssumeRoleOutcome

  datatype TokenResult =
    | TokenSuccess(credentials: IssuedCredentials, region: string)
    | TokenError(error: string)
  {
    function Status(): string
    {
      if TokenSuccess? then "success" else "error"
    }
  }

  const NotConfigured: string := "Token generation not configured. TRANSCRIBE_ROLE_ARN required."
  const SessionPrefix: string := "live-translate-"

  /** The session name: the given one, or one made from the current time in whole seconds. */
  function SessionName(sessionName: Option<string>, nowSeconds: nat): (name: string)
    ensures Truthy(sessionName) ==> name == sessionName.value
    ensures !Truthy(sessionName) ==>
              |name| > |SessionPrefix| && name[..|SessionPrefix|] == SessionPrefix
              && (forall i :: |SessionPrefix| <= i < |name| ==> IsDigit(name[i]))
  {
    if Truthy(sessionName) then sessionName.value else SessionPrefix + Decimal(nowSeconds)
  }

  /** A generated session name records the time it was made. */
  lemma SessionNameRecordsTime(nowSeconds: nat)
    ensures var name := SessionName(None, nowSeconds);
            ParseDecimal(name[|SessionPrefix|..]) == nowSeconds
  {
    var name := SessionName(None, nowSeconds);
    assert name[|SessionPrefix|..] == Decimal(nowSeconds);
    DecimalRoundTrip(nowSeconds);
  }

  /**
   * generate_token: never raises. Unconfigured -> the fixed error; otherwise
   * the role is assumed with the capped duration and the outcome is mapped to
   * a success record (credentials copied, region = the generator's region) or
   * an error message.
   */
  function GenerateToken(g: TokenGenerator, sessionName: Option<string>, nowSeconds: nat,
                         assumeRole: AssumeRole): (r: TokenResult)
    ensures !g.stsAvailable || !Truthy(g.roleArn) ==> r == TokenError(NotConfigured)
    ensures r.TokenSuccess? <==>
              g.stsAvailable && Truthy(g.roleArn)
              && assumeRole(g.roleArn.value, SessionName(sessionName, nowSeconds), g.sessionDuration).Issued?
    ensures r.TokenSuccess? ==>
              r.region == g.regionName
              && Issued(r.credentials)
                   == assumeRole(g.roleArn.value, SessionName(sessionName, nowSeconds), g.sessionDuration)
    ensures g.stsAvailable && Truthy(g.roleArn) ==>
              match assumeRole(g.roleArn.value, SessionName(sessionName, nowSeconds), g.sessionDuration)
              case Issued(_) => true
              case AssumeRoleClientError(Some(m), _) => r == TokenError("Failed to generate credentials: " + m)
              case AssumeRoleClientError(None, t) => r == TokenError("Failed to generate credentials: " + t)
              case AssumeRoleException(t) => r == TokenError("Unexpected error: " + t)
  {
    if !g.stsAvailable || !Truthy(g.roleArn) then TokenError(NotConfigured)
    else
      var name := SessionName(sessionName, nowSeconds);
      match assumeRole(g.roleArn.value, name, g.sessionDuration)
      case Issued(c) => TokenSuccess(c, g.regionName)
      case AssumeRoleClientError(m, t) =>
        TokenError("Failed to generate credentials: " + (match m case Some(msg) => msg case None => t))
      case AssumeRoleException(t) => TokenError("Unexpected error: " + t)
  }

  /** An unavailable generator always answers with the configuration error, whatever STS would do. */
  lemma UnavailableAlwaysErrors(g: TokenGenerator, sessionName: Option<string>, nowSeconds: nat,
                                assumeRole: AssumeRole)
    requires !IsAvailable(g)
    ensures GenerateToken(g, sessionName, nowSeconds, assumeRole) == TokenError(NotConfigured)
  {
  }
}
