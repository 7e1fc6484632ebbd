/** Service accounts (internal/client/service_account.go): the two-step create and the token mint. */
module ServiceAccounts {
  import opened Wrappers
  import opened Attrs
  import opened Transport

  /** `ServiceAccount`; the token is only filled in by the create. */
  datatype ServiceAccount = ServiceAccount(id: string, apiToken: string)

  /** The label of the token minted on create. */
  const ManagedTokenLabel: string := "terraform-managed"

  function AccountPath(id: string): string {
    "/v1/service_account/" + id
  }

  function TokenPath(id: string): string {
    "/v1/service_account/" + id + "/_api_token"
  }

  /** The create payload: exactly the name, as a one-element list. */
  function CreatePayload(name: string): (attrs: map<string, Json>)
    ensures attrs.Keys == {"name"} && attrs["name"] == StrArr([name])
  {
    map["name" := StrArr([name])]
  }

  /** The update payload: `displayname` only when non-empty, otherwise nothing at all. */
  function UpdatePayload(displayName: string): (attrs: map<string, Json>)
    ensures displayName == "" ==> attrs == map[]
    ensures displayName != "" ==> attrs.Keys == {"displayname"} && attrs["displayname"] == StrArr([displayName])
  {
    if displayName != "" then map["displayname" := StrArr([displayName])] else map[]
  }

  /** The token request body: always `label` and `expiry`; `expiry` is null exactly when no expiry is given. */
  function TokenPayload(tokenLabel: string, expiry: Option<int>): (req: map<string, Json>)
    ensures req.Keys == {"label", "expiry"} && req["label"] == JStr(tokenLabel)
    ensures req["expiry"] == JNull <==> expiry.None?
    ensures expiry.Some? ==> req["expiry"] == JNum(expiry.value)
  {
    map["label" := JStr(tokenLabel), "expiry" := if expiry.Some? then JNum(expiry.value) else JNull]
  }

  /**
   * The decode of the mint response into `struct { Token string }`: the `token` field, whatever
   * other fields the reply has, and "" when it is absent or null or the body is null; a body that
   * is not an object, or a `token` that is not a string, is a decode failure.
   */
  function DecodeToken(json: Option<Json>): (r: Result<string, ApiError>)
    ensures json.Some? && json.value.JObj? && "token" in json.value.fields && json.value.fields["token"].JStr? ==>
              r == Success(json.value.fields["token"].s)
    ensures json.Some? && json.value.JObj? && ("token" !in json.value.fields || json.value.fields["token"] == JNull) ==>
              r == Success("")
    ensures json == Some(JNull) ==> r == Success("")
    ensures r.Failure? <==>
              !(json.Some? && (json.value.JNull? ||
                               (json.value.JObj? && ("token" !in json.value.fields || json.value.fields["token"].JStr? ||
                                                     json.value.fields["token"].JNull?))))
    ensures r.Failure? ==> r.error == DecodeFailure
  {
    match json
    case Some(JNull) => Success("")
    case Some(JObj(fields)) =>
      if "token" !in fields then Success("")
      else (match fields["token"]
        case JStr(t) => Success(t)
        case JNull => Success("")
        case _ => Failure(DecodeFailure))
    case _ => Failure(DecodeFailure)
  }

  function TokenOutcome(reply: Reply): Result<string, ApiError>
  {
    match Outcome(reply)
    case Failure(e) => Failure(e)
    case Success(_) => DecodeToken(reply.json)
  }

  /** The `GetServiceAccount` decode: the ID from `name`, never a token. */
  function DecodeServiceAccount(e: Entry): (sa: ServiceAccount)
    ensures sa.id == GetString(e, "name") && sa.apiToken == ""
  {
    ServiceAccount(GetString(e, "name"), "")
  }

  /** What `CreateServiceAccount` writes, read back, names the account it returns. */
  lemma CreatePayloadReadsBack(name: string)
    ensures DecodeServiceAccount(ToEntry(CreatePayload(name))).id == name
  {
    StrArrReadsBack(CreatePayload(name), "name", [name]);
  }

  function GetServiceAccountOutcome(reply: Reply): Result<ServiceAccount, ApiError>
  {
    match FetchEntry(reply)
    case Failure(e) => Failure(e)
    case Success(entry) => Success(DecodeServiceAccount(entry))
  }

  /** The request `GenerateServiceAccountToken` sends. */
  function TokenRequest(c: Client, id: string, tokenLabel: string, expiry: Option<int>): Request
  {
    c.NewRequest(POST, TokenPath(id), Some(JObj(TokenPayload(tokenLabel, expiry))))
  }

  /** `GenerateServiceAccountToken`: the body starts with a null expiry, overwritten when one is given. */
  method GenerateServiceAccountToken(c: Client, net: Network, id: string, tokenLabel: string, expiry: Option<int>)
    returns (r: Result<string, ApiError>)
    modifies net
    ensures net.log == old(net.log) + [TokenRequest(c, id, tokenLabel, expiry)]
    ensures r == TokenOutcome(At(net.replies, |old(net.log)|))
  {
    var req: map<string, Json> := map["label" := JStr(tokenLabel), "expiry" := JNull];
    if expiry.Some? {
      req := req["expiry" := JNum(expiry.value)];
    }
    assert req == TokenPayload(tokenLabel, expiry);
    var resp := c.DoRequest(net, POST, TokenPath(id), Some(JObj(req)));
    if resp.Failure? {
      return Failure(resp.error);
    }
    r := DecodeToken(resp.value.json);
  }

  /**
   * `CreateServiceAccount`: the create, then a token mint labelled "terraform-managed" with no
   * expiry. A failed mint fails the whole create; on success the result has the name as its ID
   * and the minted token.
   */
  method CreateServiceAccount(c: Client, net: Network, name: string) returns (r: Result<ServiceAccount, ApiError>)
    modifies net
    ensures old(net.log) <= net.log
    ensures var create := c.NewRequest(POST, "/v1/service_account", Some(AttrsRequest(CreatePayload(name))));
            var first := Outcome(At(net.replies, |old(net.log)|));
            var minted := TokenOutcome(At(net.replies, |old(net.log)| + 1));
            && (first.Failure? ==> net.log == old(net.log) + [create] && r == Failure(first.error))
            && (first.Success? ==>
                  && net.log == old(net.log) + [create, TokenRequest(c, name, ManagedTokenLabel, None)]
                  && (minted.Failure? ==> r == Failure(minted.error))
                  && (minted.Success? ==> r == Success(ServiceAccount(name, minted.value))))
  {
    var resp := c.DoRequest(net, POST, "/v1/service_account", Some(AttrsRequest(CreatePayload(name))));
    if resp.Failure? {
      return Failure(resp.error);
    }
    var sa := ServiceAccount(name, "");
    var token := GenerateServiceAccountToken(c, net, name, ManagedTokenLabel, None);
    if token.Failure? {
      return Failure(token.error);
    }
    sa := sa.(apiToken := token.value);
    r := Success(sa);
  }

  /** `GetServiceAccount`. */
  method GetServiceAccount(c: Client, net: Network, id: string) returns (r: Result<ServiceAccount, ApiError>)
    modifies net
    ensures net.log == old(net.log) + [c.NewRequest(GET, AccountPath(id), None)]
    ensures r == GetServiceAccountOutcome(At(net.replies, |old(net.log)|))
  {
    var resp := c.DoRequest(net, GET, AccountPath(id), None);
    if resp.Failure? {
      return Failure(resp.error);
    }
    var entry := DecodeEntry(resp.value.json);
    if entry.Failure? {
      return Failure(entry.error);
    }
    r := Success(DecodeServiceAccount(entry.value));
  }

  /** `UpdateServiceAccount`. */
  method UpdateServiceAccount(c: Client, net: Network, id: string, displayName: string)
    returns (err: Option<ApiError>)
    modifies net
    ensures net.log == old(net.log) + [c.NewRequest(PATCH, AccountPath(id), Some(AttrsRequest(UpdatePayload(displayName))))]
    ensures err == Err(Outcome(At(net.replies, |old(net.log)|)))
  {
    var attrs: map<string, Json> := map[];
    if displayName != "" {
      attrs := attrs["displayname" := StrArr([displayName])];
    }
    var resp := c.DoRequest(net, PATCH, AccountPath(id), Some(AttrsRequest(attrs)));
    err := Err(resp);
  }

  /** `DeleteServiceAccount`. */
  method DeleteServiceAccount(c: Client, net: Network, id: string) returns (err: Option<ApiError>)
    modifies net
    ensures net.log == old(net.log) + [c.NewRequest(DELETE, AccountPath(id), None)]
    ensures err == Err(Outcome(At(net.replies, |old(net.log)|)))
  {
    var resp := c.DoRequest(net, DELETE, AccountPath(id), None);
    err := Err(resp);
  }
}
