/**
 * OAuth2 resource servers (internal/client/oauth2.go): the create payloads, the partial-update
 * payload, the decode of a fetched entry, and the secret and scope-map endpoints.
 */
module OAuth2 {
  import opened Wrappers
  import opened Attrs
  import opened Transport

  /** `OAuth2Client`; RedirectURIs None is the nil slice. */
  datatype OAuth2Client = OAuth2Client(
    name: string,
    displayName: string,
    origin: string,
    redirectUris: Option<seq<string>>,
    clientId: string,
    clientSecret: string,
    isPublic: bool)

  /** The attribute whose presence, not its (always hidden) value, marks a confidential client. */
  const BasicSecretAttr: string := "oauth2_rs_basic_secret"

  function ClientPath(name: string): string {
    "/v1/oauth2/" + name
  }

  function BasicSecretPath(name: string): string {
    "/v1/oauth2/" + name + "/_basic_secret"
  }

  function ScopeMapPath(rsName: string, group: string): string {
    "/v1/oauth2/" + rsName + "/_scopemap/" + group
  }

  /** Each group of one resource server has its own scope-map path. */
  lemma ScopeMapPathInjective(rsName: string, g1: string, g2: string)
    requires ScopeMapPath(rsName, g1) == ScopeMapPath(rsName, g2)
    ensures g1 == g2
  {
    var prefix := "/v1/oauth2/" + rsName + "/_scopemap/";
    assert ScopeMapPath(rsName, g1) == prefix + g1;
    assert ScopeMapPath(rsName, g2) == prefix + g2;
    assert g1 == (prefix + g1)[|prefix|..];
    assert g2 == (prefix + g2)[|prefix|..];
  }

  /** The request `SetOAuth2ScopeMap` sends: the bare scope list, not wrapped in an object. */
  function SetScopeMapRequest(c: Client, rsName: string, group: string, scopes: seq<string>): Request
  {
    c.NewRequest(POST, ScopeMapPath(rsName, group), Some(StrArr(scopes)))
  }

  /** The request `DeleteOAuth2ScopeMap` sends: the same path, no body. */
  function DeleteScopeMapRequest(c: Client, rsName: string, group: string): Request
  {
    c.NewRequest(DELETE, ScopeMapPath(rsName, group), None)
  }

  /** Scope-map requests name their group (and, for a set, its scopes) unambiguously. */
  lemma ScopeMapRequestsDistinct(c: Client, rsName: string, g1: string, s1: seq<string>,
                                 g2: string, s2: seq<string>)
    ensures SetScopeMapRequest(c, rsName, g1, s1) != DeleteScopeMapRequest(c, rsName, g2)
    ensures DeleteScopeMapRequest(c, rsName, g1) == DeleteScopeMapRequest(c, rsName, g2) ==> g1 == g2
    ensures SetScopeMapRequest(c, rsName, g1, s1) == SetScopeMapRequest(c, rsName, g2, s2) ==>
              g1 == g2 && s1 == s2
  {
    if DeleteScopeMapRequest(c, rsName, g1) == DeleteScopeMapRequest(c, rsName, g2) {
      NewRequestInjective(c, DELETE, ScopeMapPath(rsName, g1), None, DELETE, ScopeMapPath(rsName, g2), None);
      ScopeMapPathInjective(rsName, g1, g2);
    }
    if SetScopeMapRequest(c, rsName, g1, s1) == SetScopeMapRequest(c, rsName, g2, s2) {
      NewRequestInjective(c, POST, ScopeMapPath(rsName, g1), Some(StrArr(s1)),
                          POST, ScopeMapPath(rsName, g2), Some(StrArr(s2)));
      ScopeMapPathInjective(rsName, g1, g2);
      StrArrInjective(s1, s2);
    }
  }

  /** Both create payloads: three single-element lists; the origin goes in as the landing URL. */
  function CreatePayload(name: string, displayName: string, origin: string): (attrs: map<string, Json>)
    ensures attrs.Keys == {"name", "displayname", "oauth2_rs_origin_landing"}
    ensures forall k :: k in attrs ==> attrs[k].JArr? && |attrs[k].items| == 1
    ensures attrs["name"] == StrArr([name]) && attrs["displayname"] == StrArr([displayName])
    ensures attrs["oauth2_rs_origin_landing"] == StrArr([origin])
  {
    map["name" := StrArr([name]),
        "displayname" := StrArr([displayName]),
        "oauth2_rs_origin_landing" := StrArr([origin])]
  }

  /**
   * The `UpdateOAuth2Client` payload: display name and origin only when non-empty, the
   * redirect URIs only when non-nil (an empty list is sent), and nothing else.
   */
  function UpdatePayload(displayName: string, origin: string, redirectUris: Option<seq<string>>)
    : (attrs: map<string, Json>)
    ensures attrs.Keys <= {"displayname", "oauth2_rs_origin", "oauth2_rs_origin_landing"}
    ensures "displayname" in attrs <==> displayName != ""
    ensures "oauth2_rs_origin" in attrs <==> origin != ""
    ensures "oauth2_rs_origin_landing" in attrs <==> redirectUris.Some?
    ensures "displayname" in attrs ==> attrs["displayname"] == StrArr([displayName])
    ensures "oauth2_rs_origin" in attrs ==> attrs["oauth2_rs_origin"] == StrArr([origin])
    ensures redirectUris.Some? ==> attrs["oauth2_rs_origin_landing"] == StrArr(redirectUris.value)
  {
    (if displayName != "" then map["displayname" := StrArr([displayName])] else map[])
    + (if origin != "" then map["oauth2_rs_origin" := StrArr([origin])] else map[])
    + (if redirectUris.Some? then map["oauth2_rs_origin_landing" := StrArr(redirectUris.value)] else map[])
  }

  /**
   * The `GetOAuth2Client` decode: public exactly when the secret attribute is absent, the name
   * from `name` or else `oauth2_rs_name`, the client ID equal to that name, the origin without
   * its trailing slash, and never a secret.
   */
  function DecodeClient(e: Entry): (r: OAuth2Client)
    ensures r.isPublic <==> BasicSecretAttr !in e
    ensures GetString(e, "name") != "" ==> r.name == GetString(e, "name")
    ensures GetString(e, "name") == "" ==> r.name == GetString(e, "oauth2_rs_name")
    ensures r.clientId == r.name
    ensures r.origin == TrimSuffixSlash(GetString(e, "oauth2_rs_origin"))
    ensures r.displayName == GetString(e, "displayname")
    ensures r.redirectUris == StringSlice(e, "oauth2_rs_origin_landing")
    ensures r.clientSecret == ""
  {
    var isPublic := BasicSecretAttr !in e;
    var clientName := if GetString(e, "name") == "" then GetString(e, "oauth2_rs_name") else GetString(e, "name");
    var origin := GetString(e, "oauth2_rs_origin");
    var origin := if |origin| > 0 && origin[|origin| - 1] == '/' then origin[..|origin| - 1] else origin;
    OAuth2Client(clientName, GetString(e, "displayname"), origin,
                 StringSlice(e, "oauth2_rs_origin_landing"), clientName, "", isPublic)
  }

  /** What value the secret attribute holds never matters; only whether it is there. */
  lemma PublicIgnoresSecretValue(e: Entry, v: AttrVal, w: AttrVal)
    ensures !DecodeClient(e[BasicSecretAttr := v]).isPublic
    ensures DecodeClient(e[BasicSecretAttr := v]).isPublic == DecodeClient(e[BasicSecretAttr := w]).isPublic
    ensures DecodeClient(e - {BasicSecretAttr}).isPublic
  {
  }

  /**
   * An origin written as a one-element list, as `UpdateOAuth2Client` writes it, reads back
   * without one trailing slash, and unchanged when it has none.
   */
  lemma OriginReadsBackTrimmed(attrs: map<string, Json>, o: string)
    requires "oauth2_rs_origin" in attrs && attrs["oauth2_rs_origin"] == StrArr([o])
    ensures forall u :: o == u + "/" ==> DecodeClient(ToEntry(attrs)).origin == u
    ensures !(|o| > 0 && o[|o| - 1] == '/') ==> DecodeClient(ToEntry(attrs)).origin == o
  {
    StrArrReadsBack(attrs, "oauth2_rs_origin", [o]);
    forall u | o == u + "/"
      ensures DecodeClient(ToEntry(attrs)).origin == u
    {
      assert o[..|o| - 1] == u;
    }
  }

  /** A GET of a client: the exchange, the decode of the entry, then `DecodeClient`. */
  function GetClientOutcome(reply: Reply): Result<OAuth2Client, ApiError>
  {
    match FetchEntry(reply)
    case Failure(e) => Failure(e)
    case Success(entry) => Success(DecodeClient(entry))
  }

  /** A GET or POST of the basic secret: the exchange, then the body read as a JSON string. */
  function SecretOutcome(reply: Reply): Result<string, ApiError>
  {
    match Outcome(reply)
    case Failure(e) => Failure(e)
    case Success(_) => DecodeString(reply.json)
  }

  /** `GetOAuth2BasicSecret`: GET on the secret path. */
  method GetBasicSecret(c: Client, net: Network, name: string) returns (r: Result<string, ApiError>)
    modifies net
    ensures net.log == old(net.log) + [c.NewRequest(GET, BasicSecretPath(name), None)]
    ensures r == SecretOutcome(At(net.replies, |old(net.log)|))
  {
    var resp := c.DoRequest(net, GET, BasicSecretPath(name), None);
    if resp.Failure? {
      return Failure(resp.error);
    }
    r := DecodeString(resp.value.json);
  }

  /** `RegenerateOAuth2BasicSecret`: POST on the same path. */
  method RegenerateBasicSecret(c: Client, net: Network, name: string) returns (r: Result<string, ApiError>)
    modifies net
    ensures net.log == old(net.log) + [c.NewRequest(POST, BasicSecretPath(name), None)]
    ensures r == SecretOutcome(At(net.replies, |old(net.log)|))
  {
    var resp := c.DoRequest(net, POST, BasicSecretPath(name), None);
    if resp.Failure? {
      return Failure(resp.error);
    }
    r := DecodeString(resp.value.json);
  }

  /** The request `CreateOAuth2BasicClient` starts with. */
  function CreateBasicRequest(c: Client, name: string, displayName: string, origin: string): Request
  {
    c.NewRequest(POST, "/v1/oauth2/_basic", Some(AttrsRequest(CreatePayload(name, displayName, origin))))
  }

  /**
   * `CreateOAuth2BasicClient`: the create, then the secret fetch. If either fails the whole
   * create fails; otherwise the result is confidential and carries the fetched secret.
   */
  method CreateBasicClient(c: Client, net: Network, name: string, displayName: string, origin: string)
    returns (r: Result<OAuth2Client, ApiError>)
    modifies net
    ensures old(net.log) <= net.log
    ensures var create := CreateBasicRequest(c, name, displayName, origin);
            var first := Outcome(At(net.replies, |old(net.log)|));
            var secret := SecretOutcome(At(net.replies, |old(net.log)| + 1));
            && (first.Failure? ==> net.log == old(net.log) + [create] && r == Failure(first.error))
            && (first.Success? ==>
                  && net.log == old(net.log) + [create] + [c.NewRequest(GET, BasicSecretPath(name), None)]
                  && (secret.Failure? ==> r == Failure(secret.error))
                  && (secret.Success? ==>
                        r == Success(OAuth2Client(name, displayName, origin, None, name, secret.value, false))))
  {
    var resp := c.DoRequest(net, POST, "/v1/oauth2/_basic", Some(AttrsRequest(CreatePayload(name, displayName, origin))));
    if resp.Failure? {
      return Failure(resp.error);
    }
    var clientSecret := GetBasicSecret(c, net, name);
    if clientSecret.Failure? {
      return Failure(clientSecret.error);
    }
    r := Success(OAuth2Client(name, displayName, origin, None, name, clientSecret.value, false));
  }

  /** `CreateOAuth2PublicClient`: one call; the result is public and has no secret. */
  method CreatePublicClient(c: Client, net: Network, name: string, displayName: string, origin: string)
    returns (r: Result<OAuth2Client, ApiError>)
    modifies net
    ensures net.log == old(net.log) + [c.NewRequest(POST, "/v1/oauth2/_public", Some(AttrsRequest(CreatePayload(name, displayName, origin))))]
    ensures var first := Outcome(At(net.replies, |old(net.log)|));
            && (first.Failure? ==> r == Failure(first.error))
            && (first.Success? ==> r == Success(OAuth2Client(name, displayName, origin, None, name, "", true)))
  {
    var resp := c.DoRequest(net, POST, "/v1/oauth2/_public", Some(AttrsRequest(CreatePayload(name, displayName, origin))));
    if resp.Failure? {
      return Failure(resp.error);
    }
    r := Success(OAuth2Client(name, displayName, origin, None, name, "", true));
  }

  /** `GetOAuth2Client`. */
  method GetClient(c: Client, net: Network, name: string) returns (r: Result<OAuth2Client, ApiError>)
    modifies net
    ensures net.log == old(net.log) + [c.NewRequest(GET, ClientPath(name), None)]
    ensures r == GetClientOutcome(At(net.replies, |old(net.log)|))
  {
    var resp := c.DoRequest(net, GET, ClientPath(name), None);
    if resp.Failure? {
      return Failure(resp.error);
    }
    var entry := DecodeEntry(resp.value.json);
    if entry.Failure? {
      return Failure(entry.error);
    }
    r := Success(DecodeClient(entry.value));
  }

  /** The request `UpdateOAuth2Client` sends. */
  function UpdateClientRequest(c: Client, name: string, displayName: string, origin: string,
                               redirectUris: Option<seq<string>>): Request
  {
    c.NewRequest(PATCH, ClientPath(name), Some(AttrsRequest(UpdatePayload(displayName, origin, redirectUris))))
  }

  /** `UpdateOAuth2Client`: the payload is filled in step by step, then sent with PATCH. */
  method UpdateClient(c: Client, net: Network, name: string, displayName: string, origin: string,
                      redirectUris: Option<seq<string>>) returns (err: Option<ApiError>)
    modifies net
    ensures net.log == old(net.log) + [UpdateClientRequest(c, name, displayName, origin, redirectUris)]
    ensures err == Err(Outcome(At(net.replies, |old(net.log)|)))
  {
    var attrs: map<string, Json> := map[];
    if displayName != "" {
      attrs := attrs["displayname" := StrArr([displayName])];
    }
    if origin != "" {
      attrs := attrs["oauth2_rs_origin" := StrArr([origin])];
    }
    if redirectUris.Some? {
      attrs := attrs["oauth2_rs_origin_landing" := StrArr(redirectUris.value)];
    }
    assert attrs == UpdatePayload(displayName, origin, redirectUris);
    var resp := c.DoRequest(net, PATCH, ClientPath(name), Some(AttrsRequest(attrs)));
    err := Err(resp);
  }

  /** `DeleteOAuth2Client`. */
  method DeleteClient(c: Client, net: Network, name: string) returns (err: Option<ApiError>)
    modifies net
    ensures net.log == old(net.log) + [c.NewRequest(DELETE, ClientPath(name), None)]
    ensures err == Err(Outcome(At(net.replies, |old(net.log)|)))
  {
    var resp := c.DoRequest(net, DELETE, ClientPath(name), None);
    err := Err(resp);
  }

  /** `SetOAuth2ScopeMap`. */
  method SetScopeMap(c: Client, net: Network, rsName: string, group: string, scopes: seq<string>)
    returns (err: Option<ApiError>)
    modifies net
    ensures net.log == old(net.log) + [SetScopeMapRequest(c, rsName, group, scopes)]
    ensures err == Err(Outcome(At(net.replies, |old(net.log)|)))
  {
    var resp := c.DoRequest(net, POST, ScopeMapPath(rsName, group), Some(StrArr(scopes)));
    err := Err(resp);
  }

  /** `DeleteOAuth2ScopeMap`. */
  method DeleteScopeMap(c: Client, net: Network, rsName: string, group: string)
    returns (err: Option<ApiError>)
    modifies net
    ensures net.log == old(net.log) + [DeleteScopeMapRequest(c, rsName, group)]
    ensures err == Err(Outcome(At(net.replies, |old(net.log)|)))
  {
    var resp := c.DoRequest(net, DELETE, ScopeMapPath(rsName, group), None);
    err := Err(resp);
  }
}
