/**
 * The Dataverse connection settings and the two OAuth 2.0 client-credentials strings built
 * from them (section 4.4.2 of RFC 6749): the tenant's token endpoint and the `scope` value.
 */
module Options {
  import opened Json
  import opened Text

  /** The configuration section the settings are bound from. */
  const SectionName: string := "Dataverse"

  const TokenUrlPrefix: string := "https://login.microsoftonline.com/"
  const TokenUrlSuffix: string := "/oauth2/v2.0/token"
  const ScopeSuffix: string := "/.default"

  datatype DataverseOptions = DataverseOptions(
    dataverseUrl: string,
    tenantId: string,
    clientId: string,
    clientSecret: string,
    /** Minutes a token may be reused; tokens typically expire after 60. */
    tokenCacheDurationMinutes: Int32,
    requestTimeoutSeconds: Int32,
    maxRetryAttempts: Int32)

  /** A freshly constructed options object, before any setting is bound. */
  function Default(): (o: DataverseOptions)
    ensures o.dataverseUrl == "" && o.tenantId == "" && o.clientId == "" && o.clientSecret == ""
    ensures o.tokenCacheDurationMinutes == 50
    ensures o.requestTimeoutSeconds == 30
    ensures o.maxRetryAttempts == 3
    ensures 0 < o.tokenCacheDurationMinutes < 60
  {
    DataverseOptions("", "", "", "", 50, 30, 3)
  }

  /** The tenant's token endpoint: the tenant id sits, unescaped, between a fixed prefix and suffix. */
  function GetTokenUrl(o: DataverseOptions): (url: string)
    ensures StartsWith(url, TokenUrlPrefix)
    ensures |url| == |TokenUrlPrefix| + |o.tenantId| + |TokenUrlSuffix|
    ensures url[|TokenUrlPrefix|..|url| - |TokenUrlSuffix|] == o.tenantId
    ensures url[|url| - |TokenUrlSuffix|..] == TokenUrlSuffix
  {
    TokenUrlPrefix + o.tenantId + TokenUrlSuffix
  }

  /** The `scope` of the client-credentials grant: the environment URL followed by "/.default". */
  function GetScopeUrl(o: DataverseOptions): (scope: string)
    ensures StartsWith(scope, o.dataverseUrl)
    ensures |scope| == |o.dataverseUrl| + |ScopeSuffix|
    ensures scope[|o.dataverseUrl|..] == ScopeSuffix
  {
    o.dataverseUrl + ScopeSuffix
  }

  /** Reads the tenant id back out of a token endpoint. */
  function TenantOfTokenUrl(url: string): (tenant: string)
    requires |url| >= |TokenUrlPrefix| + |TokenUrlSuffix|
  {
    url[|TokenUrlPrefix|..|url| - |TokenUrlSuffix|]
  }

  /** The token endpoint determines the tenant: distinct tenants get distinct endpoints. */
  lemma TokenUrlInjective(a: DataverseOptions, b: DataverseOptions)
    ensures GetTokenUrl(a) == GetTokenUrl(b) <==> a.tenantId == b.tenantId
    ensures TenantOfTokenUrl(GetTokenUrl(a)) == a.tenantId
  {
  }

  /** The scope determines the environment URL. */
  lemma ScopeUrlInjective(a: DataverseOptions, b: DataverseOptions)
    ensures GetScopeUrl(a) == GetScopeUrl(b) <==> a.dataverseUrl == b.dataverseUrl
  {
    if GetScopeUrl(a) == GetScopeUrl(b) {
      assert a.dataverseUrl == GetScopeUrl(a)[..|GetScopeUrl(a)| - |ScopeSuffix|];
    }
  }
}
