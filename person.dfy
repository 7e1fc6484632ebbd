/** Person accounts (internal/client/person.go): payloads, the decode, password and reset token calls. */
module People {
  import opened Wrappers
  import opened Attrs
  import opened Transport

  /** `Person`; Mail None is the nil slice. */
  datatype Person = Person(id: string, displayName: string, mail: Option<seq<string>>)

  function PersonPath(id: string): string {
    "/v1/person/" + id
  }

  function PasswordPath(id: string): string {
    "/v1/person/" + id + "/_credential/_update_intent"
  }

  /** The create payload: exactly the name and the display name, each a one-element list. */
  function CreatePayload(name: string, displayName: string): (attrs: map<string, Json>)
    ensures attrs.Keys == {"name", "displayname"}
    ensures attrs["name"] == StrArr([name]) && attrs["displayname"] == StrArr([displayName])
  {
    map["name" := StrArr([name]), "displayname" := StrArr([displayName])]
  }

  /**
   * The update payload: `displayname` only when non-empty and `mail` only when non-nil; an
   * empty display name or a nil list leaves that field out.
   */
  function UpdatePayload(displayName: string, mail: Option<seq<string>>): (attrs: map<string, Json>)
    ensures attrs.Keys <= {"displayname", "mail"}
    ensures "displayname" in attrs <==> displayName != ""
    ensures "displayname" in attrs ==> attrs["displayname"] == StrArr([displayName])
    ensures "mail" in attrs <==> mail.Some?
    ensures mail.Some? ==> attrs["mail"] == StrArr(mail.value)
  {
    (if displayName != "" then map["displayname" := StrArr([displayName])] else map[])
    + (if mail.Some? then map["mail" := StrArr(mail.value)] else map[])
  }

  /** The set-password body: the password as a plain string under "password". */
  function PasswordBody(password: string): (j: Json)
    ensures j.JObj? && j.fields.Keys == {"password"} && j.fields["password"] == JStr(password)
  {
    JObj(map["password" := JStr(password)])
  }

  /** The `GetPerson` decode: mail through `GetStringSlice`, so it is nil when absent. */
  function DecodePerson(e: Entry): (p: Person)
    ensures p.id == GetString(e, "name") && p.displayName == GetString(e, "displayname")
    ensures p.mail == StringSlice(e, "mail")
    ensures "mail" !in e ==> p.mail.None?
  {
    Person(GetString(e, "name"), GetString(e, "displayname"), StringSlice(e, "mail"))
  }

  /** What `CreatePerson` writes, read back through the same accessors, is the person it returns. */
  lemma CreatePayloadReadsBack(name: string, displayName: string)
    ensures DecodePerson(ToEntry(CreatePayload(name, displayName))) == Person(name, displayName, None)
  {
    var attrs := CreatePayload(name, displayName);
    StrArrReadsBack(attrs, "name", [name]);
    StrArrReadsBack(attrs, "displayname", [displayName]);
  }

  /** A mail list written by `UpdatePerson` reads back whole. */
  lemma UpdatePayloadMailReadsBack(displayName: string, mail: seq<string>)
    ensures DecodePerson(ToEntry(UpdatePayload(displayName, Some(mail)))).mail == Some(mail)
  {
    StrArrReadsBack(UpdatePayload(displayName, Some(mail)), "mail", mail);
  }

  function GetPersonOutcome(reply: Reply): Result<Person, ApiError>
  {
    match FetchEntry(reply)
    case Failure(e) => Failure(e)
    case Success(entry) => Success(DecodePerson(entry))
  }

  /** The request `CreatePerson` sends. */
  function CreatePersonRequest(c: Client, name: string, displayName: string): Request
  {
    c.NewRequest(POST, "/v1/person", Some(AttrsRequest(CreatePayload(name, displayName))))
  }

  /** `CreatePerson`: the result echoes the inputs and has no mail. */
  method CreatePerson(c: Client, net: Network, name: string, displayName: string)
    returns (r: Result<Person, ApiError>)
    modifies net
    ensures net.log == old(net.log) + [CreatePersonRequest(c, name, displayName)]
    ensures var first := Outcome(At(net.replies, |old(net.log)|));
            && (first.Failure? ==> r == Failure(first.error))
            && (first.Success? ==> r == Success(Person(name, displayName, None)))
  {
    var resp := c.DoRequest(net, POST, "/v1/person", Some(AttrsRequest(CreatePayload(name, displayName))));
    if resp.Failure? {
      return Failure(resp.error);
    }
    r := Success(Person(name, displayName, None));
  }

  /** `GetPerson`. */
  method GetPerson(c: Client, net: Network, id: string) returns (r: Result<Person, ApiError>)
    modifies net
    ensures net.log == old(net.log) + [c.NewRequest(GET, PersonPath(id), None)]
    ensures r == GetPersonOutcome(At(net.replies, |old(net.log)|))
  {
    var resp := c.DoRequest(net, GET, PersonPath(id), None);
    if resp.Failure? {
      return Failure(resp.error);
    }
    var entry := DecodeEntry(resp.value.json);
    if entry.Failure? {
      return Failure(entry.error);
    }
    r := Success(DecodePerson(entry.value));
  }

  /** The request `UpdatePerson` sends. */
  function UpdatePersonRequest(c: Client, id: string, displayName: string, mail: Option<seq<string>>): Request
  {
    c.NewRequest(PATCH, PersonPath(id), Some(AttrsRequest(UpdatePayload(displayName, mail))))
  }

  /** Update requests differ whenever their display name or mail list differ. */
  lemma UpdatePersonRequestInjective(c: Client, id: string, displayName1: string, mail1: Option<seq<string>>,
                                     displayName2: string, mail2: Option<seq<string>>)
    requires UpdatePersonRequest(c, id, displayName1, mail1) == UpdatePersonRequest(c, id, displayName2, mail2)
    ensures displayName1 == displayName2 && mail1 == mail2
  {
    var attrs1 := UpdatePayload(displayName1, mail1);
    var attrs2 := UpdatePayload(displayName2, mail2);
    NewRequestInjective(c, PATCH, PersonPath(id), Some(AttrsRequest(attrs1)), PATCH, PersonPath(id), Some(AttrsRequest(attrs2)));
    assert attrs1 == AttrsRequest(attrs1).fields["attrs"].fields;
    if displayName1 != "" {
      StrArrInjective([displayName1], [displayName2]);
    }
    if mail1.Some? {
      StrArrInjective(mail1.value, mail2.value);
    }
  }

  /** `UpdatePerson`: the payload is filled in step by step, then sent with PATCH. */
  method UpdatePerson(c: Client, net: Network, id: string, displayName: string, mail: Option<seq<string>>)
    returns (err: Option<ApiError>)
    modifies net
    ensures net.log == old(net.log) + [UpdatePersonRequest(c, id, displayName, mail)]
    ensures err == Err(Outcome(At(net.replies, |old(net.log)|)))
  {
    var attrs: map<string, Json> := map[];
    if displayName != "" {
      attrs := attrs["displayname" := StrArr([displayName])];
    }
    if mail.Some? {
      attrs := attrs["mail" := StrArr(mail.value)];
    }
    assert attrs == UpdatePayload(displayName, mail);
    var resp := c.DoRequest(net, PATCH, PersonPath(id), Some(AttrsRequest(attrs)));
    err := Err(resp);
  }

  /** `DeletePerson`. */
  method DeletePerson(c: Client, net: Network, id: string) returns (err: Option<ApiError>)
    modifies net
    ensures net.log == old(net.log) + [c.NewRequest(DELETE, PersonPath(id), None)]
    ensures err == Err(Outcome(At(net.replies, |old(net.log)|)))
  {
    var resp := c.DoRequest(net, DELETE, PersonPath(id), None);
    err := Err(resp);
  }

  /** The request `SetPersonPassword` sends. */
  function SetPasswordRequest(c: Client, id: string, password: string): Request
  {
    c.NewRequest(POST, PasswordPath(id), Some(PasswordBody(password)))
  }

  /** Password requests for the same account differ whenever the passwords do. */
  lemma SetPasswordRequestInjective(c: Client, id: string, pw1: string, pw2: string)
    requires SetPasswordRequest(c, id, pw1) == SetPasswordRequest(c, id, pw2)
    ensures pw1 == pw2
  {
    NewRequestInjective(c, POST, PasswordPath(id), Some(PasswordBody(pw1)), POST, PasswordPath(id), Some(PasswordBody(pw2)));
    assert PasswordBody(pw1).fields["password"] == JStr(pw1);
  }

  /**
   * A password request is none of the other person requests: the create is posted to another
   * path, the update is a PATCH and the read a GET.
   */
  lemma SetPasswordRequestDistinct(c: Client, id: string, pw: string, name: string, displayName: string,
                                   mail: Option<seq<string>>)
    ensures SetPasswordRequest(c, id, pw) != CreatePersonRequest(c, name, displayName)
    ensures SetPasswordRequest(c, id, pw) != UpdatePersonRequest(c, id, displayName, mail)
    ensures SetPasswordRequest(c, id, pw) != c.NewRequest(GET, PersonPath(id), None)
  {
    if SetPasswordRequest(c, id, pw) == CreatePersonRequest(c, name, displayName) {
      NewRequestInjective(c, POST, PasswordPath(id), Some(PasswordBody(pw)),
                          POST, "/v1/person", Some(AttrsRequest(CreatePayload(name, displayName))));
    }
  }

  /** `SetPersonPassword`: POST to the credential update intent endpoint. */
  method SetPersonPassword(c: Client, net: Network, id: string, password: string)
    returns (err: Option<ApiError>)
    modifies net
    ensures net.log == old(net.log) + [SetPasswordRequest(c, id, password)]
    ensures err == Err(Outcome(At(net.replies, |old(net.log)|)))
  {
    var resp := c.DoRequest(net, POST, PasswordPath(id), Some(PasswordBody(password)));
    err := Err(resp);
  }

  /**
   * `CreatePersonCredentialResetToken` is not part of this model: it stands here as one
   * exchange, recorded as `ResetTokenIntent(id, ttl)`, whose reply yields the token or an error.
   */
  function ResetTokenOutcome(reply: Reply): Result<string, ApiError> {
    match Outcome(reply)
    case Failure(e) => Failure(e)
    case Success(_) => DecodeString(reply.json)
  }

  method CreatePersonCredentialResetToken(net: Network, id: string, ttl: int)
    returns (r: Result<string, ApiError>)
    modifies net
    ensures net.log == old(net.log) + [ResetTokenIntent(id, ttl)]
    ensures r == ResetTokenOutcome(At(net.replies, |old(net.log)|))
  {
    var reply := net.Exchange(ResetTokenIntent(id, ttl));
    r := ResetTokenOutcome(reply);
  }
}
