/**
 * The OAuth2 authenticator's policy defaults (flame/policy.go): the stock
 * grant, redirect, scope and approval strategies, the default lifespans
 * and the issuing of a signed token. The notary that signs keys, the
 * client's redirect URI check and the token and owner models are not part
 * of this model; they appear as parameters.
 */
module Flame {
  import opened Common

  datatype FlameError = InvalidRedirectURI | InvalidScope | ApprovalRejected | GrantRejected | IssueFailed(message: string)

  /** The grants a client may use. */
  datatype Grants = Grants(password: bool, clientCredentials: bool, implicit: bool, authorizationCode: bool, refreshToken: bool)

  datatype Client = Client(id: nat)
  datatype ResourceOwner = ResourceOwner(id: nat)
  /** A token: its id and the expiry from its token data. */
  datatype Token = Token(id: nat, expiresAt: int)

  /** A requested or granted scope: its list of scope names. A nil scope result is None in the strategies below. */
  type Scope = seq<string>

  /** StaticGrants: the grants selector that answers with the same five flags for every client. */
  function StaticGrants(password: bool, clientCredentials: bool, implicit: bool, authorizationCode: bool, refreshToken: bool)
    : Client -> (Grants, Option<FlameError>)
  {
    (c: Client) => (Grants(password, clientCredentials, implicit, authorizationCode, refreshToken), None)
  }

  lemma StaticGrantsForEveryClient(password: bool, clientCredentials: bool, implicit: bool, authorizationCode: bool,
                                   refreshToken: bool, c: Client)
    ensures var (g, err) := StaticGrants(password, clientCredentials, implicit, authorizationCode, refreshToken)(c);
      && err.None?
      && g.password == password && g.clientCredentials == clientCredentials && g.implicit == implicit
      && g.authorizationCode == authorizationCode && g.refreshToken == refreshToken
  {
  }

  /**
   * DefaultRedirectURIValidator: the URI itself when the client accepts it
   * (`validRedirectURI` is the client's ValidRedirectURI), otherwise "" and
   * ErrInvalidRedirectURI.
   */
  function DefaultRedirectURIValidator(client: Client, uri: string, validRedirectURI: (Client, string) -> bool)
    : (r: (string, Option<FlameError>))
    ensures validRedirectURI(client, uri) <==> r == (uri, None)
    ensures !validRedirectURI(client, uri) <==> r == ("", Some(InvalidRedirectURI))
  {
    if validRedirectURI(client, uri) then (uri, None) else ("", Some(InvalidRedirectURI))
  }

  /** DefaultGrantStrategy: only the empty scope is granted, unchanged; any other gives ErrInvalidScope and no scope. */
  function DefaultGrantStrategy(client: Client, owner: Option<ResourceOwner>, scope: Scope): (r: (Option<Scope>, Option<FlameError>))
    ensures r.1.None? <==> scope == []
    ensures r.1.None? ==> r.0 == Some(scope)
    ensures r.1.Some? ==> r == (None, Some(InvalidScope))
  {
    if scope != [] then (None, Some(InvalidScope)) else (Some(scope), None)
  }

  /** DefaultApproveStrategy: every approval is rejected. */
  function DefaultApproveStrategy(client: Client, owner: Option<ResourceOwner>, token: Token, scope: Scope)
    : (r: (Option<Scope>, Option<FlameError>))
    ensures r == (None, Some(ApprovalRejected))
  {
    (None, Some(ApprovalRejected))
  }

  /** DefaultTokenData: the owner's id under "user", or no data without an owner. */
  function DefaultTokenData(client: Client, owner: Option<ResourceOwner>, token: Token): (r: Option<map<string, nat>>)
    ensures owner.None? <==> r.None?
    ensures owner.Some? ==> r.value.Keys == {"user"} && r.value["user"] == owner.value.id
  {
    if owner.Some? then Some(map["user" := owner.value.id]) else None
  }

  /** The key the notary signs: the token id, its expiry and the extra data. */
  datatype Key = Key(id: nat, expiry: int, extra: Option<map<string, nat>>)

  /** The signing service: a signed string, or the reason it failed. */
  type Notary = Key -> Result<string, string>

  /** The parts of a policy that this model covers. */
  datatype Policy = Policy(
    notary: Notary,
    grants: Client -> (Grants, Option<FlameError>),
    redirectURIValidator: (Client, string) -> (string, Option<FlameError>),
    grantStrategy: (Client, Option<ResourceOwner>, Scope) -> (Option<Scope>, Option<FlameError>),
    approvalURL: string,
    approveStrategy: (Client, Option<ResourceOwner>, Token, Scope) -> (Option<Scope>, Option<FlameError>),
    tokenData: Option<(Client, Option<ResourceOwner>, Token) -> Option<map<string, nat>>>,
    accessTokenLifespan: int,
    refreshTokenLifespan: int,
    authorizationCodeLifespan: int)

  /** DefaultPolicy: built-in strategies and lifespans of one hour, seven days and one minute. */
  function DefaultPolicy(notary: Notary, validRedirectURI: (Client, string) -> bool): (p: Policy)
    ensures p.accessTokenLifespan == Hour && p.refreshTokenLifespan == 7 * 24 * Hour && p.authorizationCodeLifespan == Minute
    ensures p.notary == notary && p.approvalURL == "" && p.tokenData.Some?
  {
    Policy(
      notary,
      StaticGrants(false, false, false, false, false),
      (c: Client, uri: string) => DefaultRedirectURIValidator(c, uri, validRedirectURI),
      DefaultGrantStrategy,
      "",
      DefaultApproveStrategy,
      Some(DefaultTokenData),
      Hour,
      7 * 24 * Hour,
      Minute)
  }

  /**
   * The default policy enables no grant for any client, grants no
   * non-empty scope, rejects every approval, accepts exactly the redirect
   * URIs the client accepts and puts the owner's id in the token data.
   */
  lemma DefaultPolicyGrantsNothing(notary: Notary, validRedirectURI: (Client, string) -> bool,
                                   c: Client, owner: Option<ResourceOwner>, token: Token, scope: Scope, uri: string)
    ensures var p := DefaultPolicy(notary, validRedirectURI);
      && p.grants(c) == (Grants(false, false, false, false, false), None)
      && (scope != [] ==> p.grantStrategy(c, owner, scope) == (None, Some(InvalidScope)))
      && p.approveStrategy(c, owner, token, scope) == (None, Some(ApprovalRejected))
      && (owner.Some? ==> p.tokenData.value(c, owner, token) == Some(map["user" := owner.value.id]))
      && (p.redirectURIValidator(c, uri).1.None? <==> validRedirectURI(c, uri))
  {
  }

  /** The key Issue signs: the token's id and expiry, with extra data only when TokenData is set. */
  function IssueKey(p: Policy, token: Token, client: Client, owner: Option<ResourceOwner>): (k: Key)
    ensures k.id == token.id && k.expiry == token.expiresAt
    ensures p.tokenData.None? ==> k.extra.None?
    ensures p.tokenData.Some? ==> k.extra == p.tokenData.value(client, owner, token)
  {
    Key(token.id, token.expiresAt, if p.tokenData.Some? then p.tokenData.value(client, owner, token) else None)
  }

  /** Policy.Issue as written: a notary failure is answered with an empty token and no error. */
  function IssueAsWritten(p: Policy, token: Token, client: Client, owner: Option<ResourceOwner>): (string, Option<FlameError>) {
    match p.notary(IssueKey(p, token, client, owner))
    case Err(_) => ("", None)
    case Ok(signed) => (signed, None)
  }

  /** Policy.Issue with the notary's error passed on. */
  function Issue(p: Policy, token: Token, client: Client, owner: Option<ResourceOwner>): (r: (string, Option<FlameError>))
    ensures p.notary(IssueKey(p, token, client, owner)).Ok? ==> r == (p.notary(IssueKey(p, token, client, owner)).value, None)
    ensures p.notary(IssueKey(p, token, client, owner)).Err? ==>
      r == ("", Some(IssueFailed(p.notary(IssueKey(p, token, client, owner)).error)))
  {
    match p.notary(IssueKey(p, token, client, owner))
    case Err(e) => ("", Some(IssueFailed(e)))
    case Ok(signed) => (signed, None)
  }

  /**
   * As written, a notary that fails makes Issue report success with an
   * empty token; the corrected Issue reports the failure, and the two agree
   * whenever the notary signs.
   */
  lemma IssueSwallowsNotaryError(token: Token, client: Client, owner: Option<ResourceOwner>, validRedirectURI: (Client, string) -> bool)
    ensures var failing: Notary := (k: Key) => Err("signing failed");
      var p := DefaultPolicy(failing, validRedirectURI);
      && IssueAsWritten(p, token, client, owner) == ("", None)
      && Issue(p, token, client, owner) == ("", Some(IssueFailed("signing failed")))
  {
  }

  /** Whenever the notary signs, the corrected Issue returns what the written one does. */
  lemma IssueAgreesWhenSigned(p: Policy, token: Token, client: Client, owner: Option<ResourceOwner>)
    requires p.notary(IssueKey(p, token, client, owner)).Ok?
    ensures Issue(p, token, client, owner) == IssueAsWritten(p, token, client, owner)
    ensures Issue(p, token, client, owner).0 == p.notary(IssueKey(p, token, client, owner)).value
  {
  }
}
