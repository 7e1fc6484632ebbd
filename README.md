# Kanidm Terraform provider — a Dafny model

This project models the core of `terraform-provider-kanidm`, a Terraform provider that manages
Kanidm identity objects over Kanidm's REST API. It has two layers.

- **The API client** (`internal/client`). It is modelled in `attrs.dfy`, `transport.dfy`, `oauth2.dfy`,
  `group.dfy`, `person.dfy` and `service_account.dfy`:
  - `NewClient` trims a trailing slash from the base URL, sets a 30-second default timeout and then
    applies its options in order.
  - `doRequest` sends `baseURL + path` with the bearer token and JSON headers.
  - `checkResponse` turns a non-2xx status into a typed error: the sentinels for 404, 401 and 403,
    otherwise an HTTP error that includes the body when the body is non-empty.
  - `Entry.GetString` and `Entry.GetStringSlice` read Kanidm's list-valued attributes.
  - Each API call builds its own payload (`attrs` maps of one-element string lists, fields left out when empty or nil), sends
    one request (two for the basic OAuth2 create and the service-account create) and decodes the reply.
- **The resources and the provider** (`internal/provider`). They are modelled in `tf.dfy`, `provider.dfy`,
  `person_resource.dfy`, `group_resource.dfy`, `oauth2_resource.dfy` and
  `service_account_resource.dfy`:
  - Each CRUD handler is modelled as the sequence of API calls it makes, the order in which it stops
    on the first failure, the diagnostic it reports and the state it stores.
  - Terraform values are `TfValue` (null, unknown or known), with the framework's `ValueString`,
    `ValueBool` and `ValueInt64` readings.

How the network is modelled:

- The server is a `Network` object.
- Its `log` records every request sent, and its `replies` oracle fixes in advance the reply to the
  n-th request. A reply past the end of the oracle is a dropped connection.
- Each handler is specified by a function of the oracle and the log before the call. The function
  gives the log after the call and the handler's outcome (`Run`).
- Lemmas about those functions state which requests a handler can send and in which order, for
  example:
  - a scope map is deleted only for a group the plan dropped;
  - a reset token is minted exactly when it was asked for;
  - the member update of a new group carries an empty description.
- Requests are compared as values, so distinct requests are told apart by their method, path and
  body.
  - The OAuth2 client path `/v1/oauth2/<name>` can equal another client's secret path
    `/v1/oauth2/<x>/_basic_secret`. For that reason the OAuth2 properties are stated about
    scope-map requests and about the shape of the log, never as "this GET was not sent".

Go's map iteration order is unspecified. The loops over maps and sets take an order chosen before
they start, named by a ghost out-parameter. The contracts hold for every such order
(`Enumerates`, `ListsMap`).

## Model

| member | source | states |
|---|---|---|
| Attrs.GetString | internal/client/client.go:139-157 | "" for a missing key; a string attribute as is; a list's first element when that is a string; "" for every other shape |
| Attrs.StringElems | internal/client/client.go:168-174 | the filtered list is no longer than the input and holds exactly the string items |
| Attrs.StringElemsAllStrings | internal/client/client.go:169-173 | a list of strings only is kept whole, element by element |
| Attrs.StringSlice | internal/client/client.go:160-182 | nil exactly for a missing key or an unsupported shape; a string becomes a one-element list; a string list is returned as is; a generic list is filtered to its strings |
| Attrs.GetStringSlice | internal/client/client.go:160-182 | the loop filling the slice computes `StringSlice` |
| Attrs.GetStringIsSliceHead | internal/client/client.go:139-182 | where `GetString` finds a string, `GetStringSlice` is non-empty and starts with that string |
| Attrs.StrArrInjective | internal/client/client.go:189-202 | two string lists encode to the same JSON array only when they are equal |
| Attrs.ToEntry | internal/client/client.go:134-136 | the entry a payload reads back as has the payload's keys |
| Attrs.StrArrReadsBack | internal/client/client.go:160-182 | a list written as a JSON array reads back whole through `GetStringSlice`, and a one-element list reads back through `GetString` |
| Transport.CheckResponse | internal/client/client.go:99-120 | no error exactly for 2xx; `ErrNotFound` exactly for 404, `ErrUnauthorized` for 401, `ErrForbidden` for 403; any other status gives an HTTP error with that status, carrying the body exactly when the body is non-empty |
| Transport.TrimSuffixSlash | internal/client/client.go:51 | one trailing "/" is removed and nothing else changes |
| Transport.Client.constructor | internal/client/client.go:49-63 | the base URL is trimmed, the token kept; the timeout is 30 seconds unless an option sets it, and the last option wins |
| Transport.Client.Headers | internal/client/client.go:81-83 | exactly the three headers: `Bearer ` followed by the token, and JSON content type and accept |
| Transport.RequestShape | internal/client/client.go:76-83 | a request goes to the base URL followed by the path, with the given method and body and the bearer token |
| Transport.NewRequestInjective | internal/client/client.go:66-83 | requests from one client are equal only when method, path and body are |
| Transport.Network.constructor | internal/client/client.go:85 | a fresh network has sent nothing and answers with the given replies |
| Transport.Network.Exchange | internal/client/client.go:85 | one request is appended to the log and answered by the reply for its position |
| Transport.Outcome | internal/client/client.go:85-95 | a dropped connection is a transport error; an answer succeeds exactly for 2xx, otherwise its error is the one `checkResponse` gives |
| Transport.Client.DoRequest | internal/client/client.go:66-96 | exactly one request is sent, and the result is that reply's outcome |
| Transport.DecodeEntry | internal/client/client.go:123-131 | a failure is always a decode error, and a reply without a body fails |
| Transport.DecodeEntryOfWrapper | internal/client/client.go:134-136 | an `{"attrs": …}` reply decodes to the entry of those attributes |
| Transport.DecodeString | internal/client/oauth2.go:185-189 | a JSON string decodes to itself, JSON null to ""; any other body is a decode error |
| Tf.ValueString | internal/provider/person_resource.go:179 | the value of a known string, "" for a null or unknown one |
| Tf.ValueBool | internal/provider/person_resource.go:164 | true exactly for a known true |
| Tf.ValueInt64 | internal/provider/person_resource.go:203 | the value of a known number, 0 otherwise |
| Tf.KnownList | internal/provider/person_resource.go:332-338 | a list is passed on exactly when it is known, otherwise nil |
| Tf.ListOrNull | internal/provider/person_resource.go:301-310 | a fetched list is stored null exactly when it is nil or empty, otherwise as that known, non-empty list |
| Tf.WithDefault | internal/provider/person_resource.go:113-131 | an unset attribute plans as its schema default, a set one as configured |
| Tf.ReadError | internal/provider/person_resource.go:282-294 | a read removes the resource from state exactly on not-found, and otherwise fails with the handler's summary |
| Tf.DeleteResult | internal/provider/person_resource.go:421-435 | a delete reports nothing exactly when it succeeded or the object was already gone, and otherwise reports the handler's summary |
| Tf.SetElements | internal/provider/group_resource.go:129-132 | a set's elements are listed once each, in some order |
| OAuth2.ScopeMapPathInjective | internal/client/oauth2.go:156 | scope-map paths of one client differ for different groups |
| OAuth2.ScopeMapRequestsDistinct | internal/client/oauth2.go:154-174 | a scope-map set is never a scope-map delete; each is determined by its group, and a set also by its scopes |
| OAuth2.CreatePayload | internal/client/oauth2.go:22-26 | exactly name, display name and landing origin, each as a one-element list |
| OAuth2.UpdatePayload | internal/client/oauth2.go:117-129 | each field is present exactly when its value is non-empty or non-nil, with that value |
| OAuth2.DecodeClient | internal/client/oauth2.go:85-112 | public exactly when the basic-secret attribute is absent; the name from `name`, else `oauth2_rs_name`; the client ID is the name; the origin without its trailing slash; no secret |
| OAuth2.PublicIgnoresSecretValue | internal/client/oauth2.go:86-89 | only the presence of the secret attribute decides public, not its value |
| OAuth2.OriginReadsBackTrimmed | internal/client/oauth2.go:99-102 | an origin written as a one-element list reads back with one trailing slash removed, and unchanged when it has none |
| OAuth2.GetBasicSecret | internal/client/oauth2.go:177-190 | one GET of the secret path, and the secret string or the error |
| OAuth2.RegenerateBasicSecret | internal/client/oauth2.go:194-207 | one POST to the secret path, and the secret string or the error |
| OAuth2.CreateBasicClient | internal/client/oauth2.go:21-49 | the create, then, only if it succeeded, the secret fetch; the result echoes the inputs with the fetched secret and as confidential, or carries the first error |
| OAuth2.CreatePublicClient | internal/client/oauth2.go:52-72 | one POST to the public endpoint; the result echoes the inputs as public with no secret |
| OAuth2.GetClient | internal/client/oauth2.go:75-113 | one GET, then the decoded client or the error |
| OAuth2.UpdateClient | internal/client/oauth2.go:116-140 | one PATCH with the update payload; the error is that reply's |
| OAuth2.DeleteClient | internal/client/oauth2.go:143-151 | one DELETE of the client path |
| OAuth2.SetScopeMap | internal/client/oauth2.go:154-163 | one POST of the scopes to the group's scope-map path |
| OAuth2.DeleteScopeMap | internal/client/oauth2.go:166-174 | one DELETE of the group's scope-map path |
| Groups.CreatePayload | internal/client/group.go:17-23 | the name always; the description exactly when it is non-empty |
| Groups.UpdatePayload | internal/client/group.go:66-74 | the description exactly when it is non-empty, the members exactly when the list is non-nil |
| Groups.MembersBody | internal/client/group.go:101-103 | the member IDs as the body's `attrs` list |
| Groups.DecodeGroup | internal/client/group.go:51-61 | name and description as read; the members are never nil, empty when the attribute is missing |
| Groups.CreatePayloadReadsBack | internal/client/group.go:16-61 | the created group, read back, has the given name and description and no members |
| Groups.CreateGroup | internal/client/group.go:16-37 | one POST; the result echoes the inputs with nil members |
| Groups.GetGroup | internal/client/group.go:40-62 | one GET, then the decoded group or the error |
| Groups.UpdateGroupRequestInjective | internal/client/group.go:65-85 | two update requests for a group are equal only when their descriptions and member lists are |
| Groups.UpdateGroup | internal/client/group.go:65-85 | one PATCH with the update payload |
| Groups.DeleteGroup | internal/client/group.go:88-96 | one DELETE of the group path |
| Groups.AddGroupMembers | internal/client/group.go:99-112 | one POST of the members to the member attribute path |
| Groups.RemoveGroupMembers | internal/client/group.go:115-128 | one DELETE of the members at the member attribute path |
| People.CreatePayload | internal/client/person.go:17-20 | exactly name and display name, each a one-element list |
| People.UpdatePayload | internal/client/person.go:56-64 | the display name exactly when it is non-empty, the mail exactly when the list is non-nil |
| People.PasswordBody | internal/client/person.go:92-94 | the password as a plain string under `password` |
| People.DecodePerson | internal/client/person.go:47-51 | name and display name as read; the mail through `GetStringSlice`, nil when absent |
| People.CreatePayloadReadsBack | internal/client/person.go:16-51 | the created person, read back, is the person `CreatePerson` returns |
| People.UpdatePayloadMailReadsBack | internal/client/person.go:55-64 | a mail list written by an update reads back whole |
| People.CreatePerson | internal/client/person.go:16-33 | one POST; the result echoes the inputs with no mail |
| People.GetPerson | internal/client/person.go:36-52 | one GET, then the decoded person or the error |
| People.UpdatePersonRequestInjective | internal/client/person.go:55-68 | two update requests for a person are equal only when their display names and mail lists are |
| People.UpdatePerson | internal/client/person.go:55-75 | one PATCH with the update payload |
| People.DeletePerson | internal/client/person.go:78-86 | one DELETE of the person path |
| People.SetPasswordRequestInjective | internal/client/person.go:89-96 | password requests for an account are equal only when the passwords are |
| People.SetPasswordRequestDistinct | internal/client/person.go:89-96 | a password request is never the create, the update or the read of a person |
| People.SetPersonPassword | internal/client/person.go:89-103 | one POST of the password to the credential update intent path |
| People.CreatePersonCredentialResetToken | internal/provider/person_resource.go:204 | one reset-token exchange for the account and lifetime; the token or the error |
| ServiceAccounts.CreatePayload | internal/client/service_account.go:16-18 | exactly the name, as a one-element list |
| ServiceAccounts.UpdatePayload | internal/client/service_account.go:61-67 | empty for an empty display name, otherwise exactly the display name |
| ServiceAccounts.TokenPayload | internal/client/service_account.go:91-98 | exactly label and expiry; the expiry is null exactly when none is given |
| ServiceAccounts.DecodeToken | internal/client/service_account.go:105-113 | the reply object's `token` string whatever other fields it has; "" when `token` is absent or null or the body is null; a decode error exactly for any other body |
| ServiceAccounts.DecodeServiceAccount | internal/client/service_account.go:53-56 | the name as read, and no token |
| ServiceAccounts.CreatePayloadReadsBack | internal/client/service_account.go:15-56 | the created account, read back, has the given name |
| ServiceAccounts.GenerateServiceAccountToken | internal/client/service_account.go:90-114 | one POST to the token path, then the minted token or the error |
| ServiceAccounts.CreateServiceAccount | internal/client/service_account.go:15-39 | the create, then, only if it succeeded, a token minted with the `terraform-managed` label and no expiry; the result has the minted token, or the first error |
| ServiceAccounts.GetServiceAccount | internal/client/service_account.go:42-57 | one GET, then the decoded account or the error |
| ServiceAccounts.UpdateServiceAccount | internal/client/service_account.go:60-76 | one PATCH with the update payload |
| ServiceAccounts.DeleteServiceAccount | internal/client/service_account.go:79-87 | one DELETE of the account path |
| Provider.ConfigOverridesEnv | internal/provider/provider.go:75-78 | a configured value wins over the environment; a null one falls back to the variable, "" when it is unset; an unknown one reads as "" |
| Provider.ConfigDiagsExact | internal/provider/provider.go:80-104 | each setting is reported on its own attribute exactly when it resolves to ""; nothing else is reported; both missing gives the URL error first |
| Provider.NothingSetReportsBoth | internal/provider/provider.go:75-104 | with nothing configured or set in the environment, both errors come out of one call |
| Provider.UnknownSettingReported | internal/provider/provider.go:76-88 | an unknown URL is reported as missing, whatever the environment holds |
| Provider.ConfigureResponse.constructor | internal/provider/provider.go:65 | a response starts with no diagnostics and no data |
| Provider.Configure | internal/provider/provider.go:65-124 | the diagnostics grow by exactly the missing-setting errors; with any error no client is handed over; otherwise one new client, for the trimmed URL and the token with the default timeout, is both the resource data and the data-source data |
| GroupResource.GroupState | internal/provider/group_resource.go:207-216 | ID and description as fetched; the members always a known set, holding exactly the fetched members |
| GroupResource.AbsentMembersStoredEmpty | internal/provider/group_resource.go:207-216 | a group without a member attribute is stored with a known, empty set |
| GroupResource.AddPlannedMembers | internal/provider/group_resource.go:127-146 | a known, non-empty plan set is written with one update with an empty description listing each planned member once; otherwise nothing is sent |
| GroupResource.CreateWithMembers | internal/provider/group_resource.go:112-146 | the create with the description or ""; on success, the member step; each failure gives its own summary |
| GroupResource.Create | internal/provider/group_resource.go:100-175 | the create, the member step and the read-back, each stopping the handler on failure; the state is the read-back group's |
| GroupResource.CreateMemberRequests | internal/provider/group_resource.go:117-146 | Create sends a group update exactly when the create succeeded and the plan adds members, and then only with an empty description and the listed members |
| GroupResource.Read | internal/provider/group_resource.go:177-219 | one GET; not-found removes the resource, another error is reported, success refreshes every field |
| GroupResource.Update | internal/provider/group_resource.go:221-284 | one update with the description or "" and the members, nil unless the plan set is known; then, unless it failed, the read-back decides the state |
| GroupResource.Delete | internal/provider/group_resource.go:286-316 | one DELETE; an already deleted group counts as deleted |
| PersonResource.SetUpCredentials | internal/provider/person_resource.go:189-213 | the password step and the reset-token step as `CredentialsRun` describes, stopping at the first failure |
| PersonResource.CreateStart | internal/provider/person_resource.go:162-213 | the conflict check before any call, the create, then the credential steps |
| PersonResource.CreateFinish | internal/provider/person_resource.go:215-256 | the mail step, then the read-back, which decides the state |
| PersonResource.Create | internal/provider/person_resource.go:155-265 | the start, then the finish with the reset token the start produced |
| PersonResource.CreateConflictSendsNothing | internal/provider/person_resource.go:163-172 | a plan with both a password and a reset-token request fails with "Conflicting Configuration" before any request |
| PersonResource.RefreshedState | internal/provider/person_resource.go:298-313 | ID and name as fetched; the mail null exactly when the fetched list is nil or empty; the write-only attributes kept |
| PersonResource.Read | internal/provider/person_resource.go:268-315 | one GET; not-found removes the resource, another error is reported, success refreshes the state |
| PersonResource.UpdateStart | internal/provider/person_resource.go:332-374 | the update with the planned name and mail (nil unless known), then the credential steps, each guarded by a change against the stored state |
| PersonResource.Update | internal/provider/person_resource.go:318-406 | the start, then the read-back, which decides the state |
| PersonResource.Delete | internal/provider/person_resource.go:409-440 | one DELETE; an already deleted person counts as deleted |
| PersonResource.CredentialsRequests | internal/provider/person_resource.go:189-213 | a password request exactly when the step is asked for, with the planned password; a reset-token request exactly when asked for and the password step, if any, succeeded; nothing else |
| PersonResource.CreateFinishRequests | internal/provider/person_resource.go:215-243 | the end of Create sends the read-back and, for a known, non-empty mail list only, one update with an empty display name and that list |
| PersonResource.CreateRunParts | internal/provider/person_resource.go:179-243 | Create after a successful create is the credential steps followed, on their success, by the finish |
| PersonResource.CreateRunSince | internal/provider/person_resource.go:179-243 | what Create sends is the create, the start's requests and, when the start succeeded, the finish's |
| PersonResource.CreatePasswordRequests | internal/provider/person_resource.go:189-198 | once the person is created, the password is set exactly when the plan has one, and to that password |
| PersonResource.CreateMintRequests | internal/provider/person_resource.go:201-213 | once the person is created, a reset token is minted exactly when the plan asks, for that person and the planned lifetime |
| PersonResource.CreateMailRequests | internal/provider/person_resource.go:215-233 | the mail is updated exactly when the earlier steps succeeded and the plan list is known and non-empty, with an empty display name and that list |
| PersonResource.CreateState | internal/provider/person_resource.go:245-264 | a successful Create read the person back with the reply after its last step and stores that person's ID and name, its mail when it has some and the planned value otherwise; the minted token when one was asked for, otherwise the planned one; the planned password, flag and lifetime |
| PersonResource.UpdateRunParts | internal/provider/person_resource.go:341-384 | Update after a successful client update is the credential steps followed, on their success, by the read-back |
| PersonResource.UpdatePasswordRequests | internal/provider/person_resource.go:350-359 | the password is re-sent exactly when the plan has a non-null one that differs from the stored one |
| PersonResource.UpdateMintRequests | internal/provider/person_resource.go:361-374 | a reset token is minted exactly when the flag is set and differs from the stored one, and the password step, if any, succeeded |
| PersonResource.UpdateState | internal/provider/person_resource.go:386-399 | a successful Update read the person back with the reply after its last step and stores that person's ID and name and its mail, null when it has none; the minted token when one was requested, otherwise the planned one; the planned password, flag and lifetime |
| PersonResource.DefaultTtlMint | internal/provider/person_resource.go:126-131 | with the lifetime left unset, Create mints a reset token, only when asked for, with the 3600-second default |
| PersonResource.DefaultFlagNoMint | internal/provider/person_resource.go:113-119 | with the reset-token flag left unset, Create never mints a reset token |
| PersonResource.CredentialsRunLength | internal/provider/person_resource.go:189-213 | the credential steps, on success, sent one request per step asked for |
| OAuth2Resource.ByGroupKeys | internal/provider/oauth2_basic_resource.go:390-416 | the group map has a key for exactly the groups the entries name |
| OAuth2Resource.LaterEntryWins | internal/provider/oauth2_basic_resource.go:390-416 | for a group named more than once, the last entry decides its scopes |
| OAuth2Resource.BuildScopeMaps | internal/provider/oauth2_basic_resource.go:390-416 | the loop filling the group map computes `ScopeMapsByGroup` |
| OAuth2Resource.SetRequestsMembers | internal/provider/oauth2_basic_resource.go:434-447 | the set requests name exactly the given entries, and none is a delete |
| OAuth2Resource.DeleteRequestsMembers | internal/provider/oauth2_basic_resource.go:418-432 | the delete requests name exactly the given groups, and none is a set |
| OAuth2Resource.CallsRunSent | internal/provider/oauth2_basic_resource.go:418-447 | a loop of calls sends only its own requests, all of them when it succeeds, and fails only with its summary |
| OAuth2Resource.CallsRunStops | internal/provider/oauth2_basic_resource.go:418-447 | once a call fails, no later call of the loop is sent |
| OAuth2Resource.SetScopeMapsInOrder | internal/provider/oauth2_basic_resource.go:205-232 | the scope maps are set in order, stopping at the first failure |
| OAuth2Resource.DeleteScopeMapsInOrder | internal/provider/oauth2_basic_resource.go:418-432 | the scope maps are deleted in order, stopping at the first failure |
| OAuth2Resource.EntriesOf | internal/provider/oauth2_basic_resource.go:434-447 | one entry per listed group, with that group's scopes |
| OAuth2Resource.EntriesOfListsMap | internal/provider/oauth2_basic_resource.go:434-447 | entries built from an enumeration of a map's groups list that map |
| OAuth2Resource.Reconcile | internal/provider/oauth2_basic_resource.go:418-447 | it deletes the old groups the plan lacks, then sets every planned group, each loop in some order |
| OAuth2Resource.ReconcileRequests | internal/provider/oauth2_basic_resource.go:418-447 | it deletes only listed groups and sets only listed entries, and on success all of them |
| OAuth2Resource.RefreshedState | internal/provider/oauth2_basic_resource.go:311-324 | name, display name and origin as fetched; the redirect URIs null exactly when the fetched list is nil or empty; scope maps and secret kept |
| OAuth2Resource.ReadBack | internal/provider/oauth2_basic_resource.go:235-259 | one GET; the refreshed state or "Error Reading OAuth2 Client" |
| OAuth2Resource.Configure | internal/provider/oauth2_basic_resource.go:182-259 | the client update, the scope maps in order and the read-back, as `ConfigureRun` describes |
| OAuth2Resource.Create | internal/provider/oauth2_basic_resource.go:155-269 | the basic-client create and secret fetch, then the configuration steps, as `CreateRun` describes |
| OAuth2Resource.ConfigureScopeMapRequests | internal/provider/oauth2_basic_resource.go:196-232 | the configuration steps set only planned entries, all of them on success, and delete none |
| OAuth2Resource.CreateScopeMapRequests | internal/provider/oauth2_basic_resource.go:155-232 | Create sets only planned entries, all of them on success, and deletes none |
| OAuth2Resource.CreateState | internal/provider/oauth2_basic_resource.go:245-259 | a successful Create stores the secret fetched after the create and the planned scope maps, and never a known empty redirect list |
| OAuth2Resource.Read | internal/provider/oauth2_basic_resource.go:271-349 | as `ReadRun` describes: not-found removes, a public client is an error, otherwise a refresh with the secret fetched when missing |
| OAuth2Resource.ReadSecret | internal/provider/oauth2_basic_resource.go:300-344 | a public client is rejected after one request; for a confidential one the secret is fetched exactly when the stored one is null or empty, and stored only when the fetch succeeds |
| OAuth2Resource.Update | internal/provider/oauth2_basic_resource.go:351-483 | the client update, the scope-map reconciliation in the orders its loops took, then the read-back, as `UpdateRun` describes |
| OAuth2Resource.UpdateRunParts | internal/provider/oauth2_basic_resource.go:374-457 | Update after a successful client update is the reconciliation followed, on its success, by the read-back |
| OAuth2Resource.UpdateScopeMapRequests | internal/provider/oauth2_basic_resource.go:390-447 | a scope map is deleted only for a group in the old state and not in the plan, so a kept group is never deleted; on success exactly those are deleted and every planned group is set to its scopes |
| OAuth2Resource.UpdateSetsLastEntry | internal/provider/oauth2_basic_resource.go:390-447 | when the plan names a group twice, a successful Update sets the scopes of its last entry and no other |
| OAuth2Resource.UpdateState | internal/provider/oauth2_basic_resource.go:460-476 | a successful Update keeps the stored secret and the planned scope maps, and never stores a known empty or unknown redirect list |
| OAuth2Resource.Delete | internal/provider/oauth2_basic_resource.go:485-515 | one DELETE; an already deleted client counts as deleted |
| ServiceAccountResource.Create | internal/provider/service_account_resource.go:99-129 | the account create and, only if it succeeded, the token mint; success exactly when both succeed, storing the name and the minted token |
| ServiceAccountResource.Read | internal/provider/service_account_resource.go:131-165 | one GET; not-found removes the resource, another error is reported, success refreshes the ID and keeps the token |
| ServiceAccountResource.Update | internal/provider/service_account_resource.go:167-189 | no call; the planned ID with the stored token |
| ServiceAccountResource.Delete | internal/provider/service_account_resource.go:191-221 | one DELETE; an already deleted account counts as deleted |

## Left out

- `main.go`, `New`, `Metadata`, `Schema` (apart from the person resource's two defaults, see `PersonResource.DefaultTtlMint` and `PersonResource.DefaultFlagNoMint`), `DataSources`, `Resources`, the resources' `Configure` type assertions and `ImportState`: these only register the provider and its resources with the framework.
- HTTP execution, JSON encoding and decoding, and `io.ReadAll`: a reply is given as a status, a body string and an already-parsed JSON value. Marshalling and request-construction errors cannot arise in this model.
- The `context.Context` argument, the timeout's effect, and `WithHTTPClient` beyond the timeout it carries: the model has no clock. A timeout shows only as a dropped reply.
- Error messages and their wrapping (`fmt.Errorf("create person: %w", …)`): only the kind of error is kept, and it is compared the way `errors.Is` compares it. Diagnostics keep their summary and their attribute, not their detail text.
- All diagnostics are errors: `HasError` is modelled as "some diagnostic was added".
- `tflog` logging.
- `req.Plan.Get`, `req.State.Get`, `req.Config.Get`, `resp.State.Set`, `ElementsAs`, `ListValueFrom` and `SetValueFrom`: these framework reads, writes and conversions are taken to succeed. Their diagnostics and the early returns they trigger (for example at internal/provider/provider.go:68-72 and internal/provider/group_resource.go:101-105) are not modelled. Known sets and lists are passed through as sequences, and the scope-map group and scopes are taken as known: the schema makes them required.
- The `ScopeMaps` field of `client.OAuth2Client` is not modelled: `GetOAuth2Client` never fills it.
- The client function `CreatePersonCredentialResetToken` is not part of this model. It stands as one opaque exchange that returns the token or an error.
- The server's behaviour: every reply comes from the oracle, so properties hold for any server.
- Transport.DecodeEntry: states only the error kinds and the decode of an `attrs` wrapper, not the decoding of arbitrary JSON.
- Attrs.StringSlice: for a generic list it states the membership and the length bound, not the order. The order is given by `StringElems`, and `GetStringSlice`'s loop is proved equal to it.
- ServiceAccountResource.Update: sends no request, because the source's `Update` makes no call either.
- ServiceAccounts.DecodeToken: matches the key `token` exactly; Go's `encoding/json` would also accept a key that differs only in case, such as `Token`.
- Go's 64-bit integers are unbounded here. The reset-token lifetime is passed through `int(…)` unchanged, and no wrap-around is modelled.
