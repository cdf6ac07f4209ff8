/** Minting and revoking a scoped GitHub token through the Octo STS exchange
    (pkg/octosts/octosts.go). The exchange itself and the HTTP round trip are supplied
    as inputs. */
module OctoSts {
  import opened Base

  const OctoStsEndpoint: string := "https://octo-sts.dev"
  const RevokeUrl: string := "https://api.github.com/installation/token"

  /** The scope requested for a token: the organization alone, or `org/repo`. */
  function Scope(org: string, repo: string): (scope: string)
    ensures repo == "" ==> scope == org
    ensures repo != "" ==> scope == org + "/" + repo
  {
    if repo == "" then org else org + "/" + repo
  }

  /** The index of the first '/' of `s`, or |s| when there is none. */
  function FirstSlash(s: string): (i: nat)
    ensures i <= |s|
    ensures forall j :: 0 <= j < i ==> s[j] != '/'
    ensures i < |s| ==> s[i] == '/'
  {
    if s == [] || s[0] == '/' then 0 else 1 + FirstSlash(s[1..])
  }

  /** How a scope is read back as (organization, repository): everything before the first
      '/' names the organization and everything after it the repository. */
  function ParseScope(scope: string): (string, string) {
    var i := FirstSlash(scope);
    if i == |scope| then (scope, "") else (scope[..i], scope[i + 1..])
  }

  /** The first '/' of `org + "/" + rest` is the one after `org` when `org` has none. */
  lemma {:induction false} FirstSlashAfter(org: string, rest: string)
    requires forall j :: 0 <= j < |org| ==> org[j] != '/'
    ensures FirstSlash(org + "/" + rest) == |org|
  {
    if org != [] {
      assert (org + "/" + rest)[1..] == org[1..] + "/" + rest;
      FirstSlashAfter(org[1..], rest);
    }
  }

  /** For an organization name without '/', the scope determines the (org, repo) pair it
      was built from: an empty repository gives the organization scope, any other the
      repository scope. */
  lemma ScopeRoundTrip(org: string, repo: string)
    requires forall j :: 0 <= j < |org| ==> org[j] != '/'
    ensures ParseScope(Scope(org, repo)) == (org, repo)
  {
    if repo == "" {
      assert FirstSlash(org) == |org|;
    } else {
      FirstSlashAfter(org, repo);
      var s := org + "/" + repo;
      assert s[..|org|] == org && s[|org| + 1..] == repo;
    }
  }

  /** The parameters of the token exchange: endpoint, audience, scope and identity. */
  datatype Exchange = Exchange(endpoint: string, audience: string, scope: string, identity: string)

  /** The exchange Token configures: the policy name is both the audience and the identity. */
  function ExchangeFor(policyName: string, org: string, repo: string): (x: Exchange)
    ensures x.endpoint == OctoStsEndpoint && x.scope == Scope(org, repo)
    ensures x.audience == policyName && x.identity == policyName
  {
    Exchange(OctoStsEndpoint, policyName, Scope(org, repo), policyName)
  }

  /** Token: runs the exchange with the identity token read from WIP_TOKEN and returns
      ("", err) when it fails and (token, nil) otherwise. */
  function Token(policyName: string, org: string, repo: string, wipToken: string,
                 exchange: (Exchange, string) -> Result<string>): (r: (string, Option<Error>))
    ensures var x := exchange(ExchangeFor(policyName, org, repo), wipToken);
      && (r.1.None? <==> x.Ok?)
      && (x.Ok? ==> r.0 == x.value)
      && (x.Err? ==> r == ("", Some(x.error)))
  {
    match exchange(ExchangeFor(policyName, org, repo), wipToken)
    case Err(e) => ("", Some(e))
    case Ok(tok) => (tok, None)
  }

  /** An HTTP request: method (verb), URL and header lines. */
  datatype Request = Request(verb: string, url: string, headers: seq<(string, string)>)

  /** What http.Client.Do gives back: a transport error, or a response status. */
  datatype HttpReply = Failed(err: Error) | Answered(code: int)

  /** The Authorization value for a bearer token (section 2.1 of RFC 6750). */
  function Bearer(tok: string): string {
    "Bearer " + tok
  }

  /** The token carried by an Authorization value of the Bearer scheme, if it is one. */
  function BearerCredential(value: string): Option<string> {
    if |value| >= 7 && value[..7] == "Bearer " then Some(value[7..]) else None
  }

  lemma BearerRoundTrip(tok: string)
    ensures BearerCredential(Bearer(tok)) == Some(tok)
  {
    assert Bearer(tok)[..7] == "Bearer " && Bearer(tok)[7..] == tok;
  }

  /** Revoke's request: a DELETE of the installation token, authorized by that token. */
  function RevokeRequest(tok: string): (req: Request)
    ensures req.verb == "DELETE" && req.url == RevokeUrl
    ensures |req.headers| == 1 && req.headers[0].0 == "Authorization"
    ensures BearerCredential(req.headers[0].1) == Some(tok)
  {
    BearerRoundTrip(tok);
    Request("DELETE", RevokeUrl, [("Authorization", Bearer(tok))])
  }

  /** Revoke: sends RevokeRequest(tok) through `send` and classifies the reply. Success is
      exactly 204 No Content; a transport failure is wrapped as "making request" and any
      other status is "unexpected status code". */
  function Revoke(tok: string, send: Request -> HttpReply): (r: Outcome)
    ensures var reply := send(RevokeRequest(tok));
      && (r == Pass <==> reply == Answered(StatusNoContent))
      && (reply.Failed? ==> r == Fail(Wrap("making request", reply.err)))
      && (reply.Answered? && reply.code != StatusNoContent ==>
            r == Fail(Status("unexpected status code", None, reply.code)))
  {
    match send(RevokeRequest(tok))
    case Failed(e) => Fail(Wrap("making request", e))
    case Answered(code) =>
      if code != StatusNoContent then Fail(Status("unexpected status code", None, code)) else Pass
  }
}
