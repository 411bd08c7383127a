/**
 * The connect-time authorizer: decides from the request headers whether a
 * WebSocket connection is allowed, and whether it may send transcripts.
 */
module LambdaAuthorizer {
  import opened Common

  datatype Statement = Statement(action: string, effect: string, resource: string)

  datatype Policy = Policy(
    principalId: string,
    version: string,
    statements: seq<Statement>,
    context: map<string, bool>)

  /** The IAM policy document for one effect on one resource, passing the context through. */
  function GeneratePolicy(effect: string, resource: string, contextData: map<string, bool>): (p: Policy)
    ensures p.principalId == "user" && p.version == "2012-10-17"
    ensures |p.statements| == 1
    ensures p.statements[0] == Statement("execute-api:Invoke", effect, resource)
    ensures p.context == contextData
  {
    Policy("user", "2012-10-17", [Statement("execute-api:Invoke", effect, resource)], contextData)
  }

  /** `headers.get(name)`: a missing header is None. */
  function Header(headers: map<string, string>, name: string): Option<string>
  {
    if name in headers then Some(headers[name]) else None
  }

  /**
   * `headers.get("X-API-Key") or headers.get("x-api-key")`: the upper-case
   * header wins unless it is absent or empty.
   */
  function ProvidedKey(headers: map<string, string>): (k: Option<string>)
    ensures Truthy(Header(headers, "X-API-Key")) ==> k == Header(headers, "X-API-Key")
    ensures !Truthy(Header(headers, "X-API-Key")) ==> k == Header(headers, "x-api-key")
  {
    var upper := Header(headers, "X-API-Key");
    if Truthy(upper) then upper else Header(headers, "x-api-key")
  }

  const AuthorizedSender: string := "isAuthorizedSender"

  /**
   * The authorizer's decision. `apiKey` is the configured API_KEY.
   * No key header (absent or empty): Allow as a read-only web client.
   * The configured key: Allow as an authorized sender. Any other key, or any
   * key while none is configured: Deny with an empty context.
   */
  function Authorize(headers: map<string, string>, methodArn: string, apiKey: Option<string>): (p: Policy)
    ensures |p.statements| == 1 && p.statements[0].resource == methodArn
    ensures p.statements[0].effect == "Deny" <==>
              Truthy(ProvidedKey(headers)) && !(Truthy(apiKey) && ProvidedKey(headers) == apiKey)
    ensures p.statements[0].effect == "Allow" <==> p.statements[0].effect != "Deny"
    ensures p.statements[0].effect == "Deny" ==> p.context == map[]
    ensures p.statements[0].effect == "Allow" ==>
              p.context == map[AuthorizedSender := Truthy(ProvidedKey(headers))]
  {
    var provided := ProvidedKey(headers);
    if Truthy(provided) then
      if Truthy(apiKey) && provided.value == apiKey.value then
        GeneratePolicy("Allow", methodArn, map[AuthorizedSender := true])
      else
        GeneratePolicy("Deny", methodArn, map[])
    else
      GeneratePolicy("Allow", methodArn, map[AuthorizedSender := false])
  }

  /** A web client sending no key header is let in, not as a sender. */
  lemma NoKeyHeaderAllowsViewer(headers: map<string, string>, methodArn: string, apiKey: Option<string>)
    requires !Truthy(Header(headers, "X-API-Key")) && !Truthy(Header(headers, "x-api-key"))
    ensures Authorize(headers, methodArn, apiKey).statements[0].effect == "Allow"
    ensures Authorize(headers, methodArn, apiKey).context == map[AuthorizedSender := false]
  {
  }

  /** The configured key under either header name admits a sender. */
  lemma LowerCaseHeaderSuffices(key: string, methodArn: string)
    requires key != ""
    ensures Authorize(map["x-api-key" := key], methodArn, Some(key)).context == map[AuthorizedSender := true]
  {
    assert "X-API-Key" != "x-api-key";
  }

  /** A wrong upper-case key is not rescued by a correct lower-case one. */
  lemma UpperCaseHeaderTakesPrecedence(key: string, wrong: string, methodArn: string)
    requires key != "" && wrong != "" && wrong != key
    ensures Authorize(map["X-API-Key" := wrong, "x-api-key" := key], methodArn, Some(key))
              .statements[0].effect == "Deny"
  {
  }
}
