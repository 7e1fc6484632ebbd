/** Groups (internal/client/group.go): payloads, the decode with never-nil members, membership calls. */
module Groups {
  import opened Wrappers
  import opened Attrs
  import opened Transport

  /** `Group`; Members None is the nil slice, which only the create result has. */
  datatype Group = Group(id: string, description: string, members: Option<seq<string>>)

  function GroupPath(id: string): string {
    "/v1/group/" + id
  }

  function MemberAttrPath(id: string): string {
    "/v1/group/" + id + "/_attr/member"
  }

  /** The create payload: `name` always, as a one-element list; `description` only when non-empty. */
  function CreatePayload(name: string, description: string): (attrs: map<string, Json>)
    ensures "name" in attrs && attrs["name"] == StrArr([name])
    ensures "description" in attrs <==> description != ""
    ensures "description" in attrs ==> attrs["description"] == StrArr([description])
    ensures attrs.Keys <= {"name", "description"}
  {
    map["name" := StrArr([name])]
    + (if description != "" then map["description" := StrArr([description])] else map[])
  }

  /**
   * The update payload: `description` only when non-empty, `member` whenever the list is
   * non-nil, so an empty list replaces the membership with nothing.
   */
  function UpdatePayload(description: string, members: Option<seq<string>>): (attrs: map<string, Json>)
    ensures attrs.Keys <= {"description", "member"}
    ensures "description" in attrs <==> description != ""
    ensures "description" in attrs ==> attrs["description"] == StrArr([description])
    ensures "member" in attrs <==> members.Some?
    ensures members.Some? ==> attrs["member"] == StrArr(members.value)
  {
    (if description != "" then map["description" := StrArr([description])] else map[])
    + (if members.Some? then map["member" := StrArr(members.value)] else map[])
  }

  /** The body of the add and remove member calls: the bare ID list under "attrs". */
  function MembersBody(memberIds: seq<string>): (j: Json)
    ensures j.JObj? && j.fields.Keys == {"attrs"} && j.fields["attrs"] == StrArr(memberIds)
  {
    JObj(map["attrs" := StrArr(memberIds)])
  }

  /** The `GetGroup` decode: members are never nil; an absent `member` decodes to no members. */
  function DecodeGroup(e: Entry): (g: Group)
    ensures g.members.Some?
    ensures StringSlice(e, "member").Some? ==> g.members == StringSlice(e, "member")
    ensures StringSlice(e, "member").None? ==> g.members == Some([])
    ensures "member" !in e ==> g.members == Some([])
    ensures g.id == GetString(e, "name") && g.description == GetString(e, "description")
  {
    var members := StringSlice(e, "member");
    var members := if members.None? then Some([]) else members;
    Group(GetString(e, "name"), GetString(e, "description"), members)
  }

  /**
   * What `CreateGroup` writes, read back through the same accessors, is the group it returns,
   * with an empty (not nil) member list.
   */
  lemma CreatePayloadReadsBack(name: string, description: string)
    ensures DecodeGroup(ToEntry(CreatePayload(name, description))) == Group(name, description, Some([]))
  {
    var attrs := CreatePayload(name, description);
    StrArrReadsBack(attrs, "name", [name]);
    if description != "" {
      StrArrReadsBack(attrs, "description", [description]);
    }
  }

  function GetGroupOutcome(reply: Reply): Result<Group, ApiError>
  {
    match FetchEntry(reply)
    case Failure(e) => Failure(e)
    case Success(entry) => Success(DecodeGroup(entry))
  }

  /** The request `CreateGroup` sends. */
  function CreateGroupRequest(c: Client, name: string, description: string): Request
  {
    c.NewRequest(POST, "/v1/group", Some(AttrsRequest(CreatePayload(name, description))))
  }

  /** `CreateGroup`: the result echoes the inputs, with nil members. */
  method CreateGroup(c: Client, net: Network, name: string, description: string)
    returns (r: Result<Group, ApiError>)
    modifies net
    ensures net.log == old(net.log) + [CreateGroupRequest(c, name, description)]
    ensures var first := Outcome(At(net.replies, |old(net.log)|));
            && (first.Failure? ==> r == Failure(first.error))
            && (first.Success? ==> r == Success(Group(name, description, None)))
  {
    var attrs: map<string, Json> := map["name" := StrArr([name])];
    if description != "" {
      attrs := attrs["description" := StrArr([description])];
    }
    assert attrs == CreatePayload(name, description);
    var resp := c.DoRequest(net, POST, "/v1/group", Some(AttrsRequest(attrs)));
    if resp.Failure? {
      return Failure(resp.error);
    }
    r := Success(Group(name, description, None));
  }

  /** `GetGroup`. */
  method GetGroup(c: Client, net: Network, id: string) returns (r: Result<Group, ApiError>)
    modifies net
    ensures net.log == old(net.log) + [c.NewRequest(GET, GroupPath(id), None)]
    ensures r == GetGroupOutcome(At(net.replies, |old(net.log)|))
  {
    var resp := c.DoRequest(net, GET, GroupPath(id), None);
    if resp.Failure? {
      return Failure(resp.error);
    }
    var entry := DecodeEntry(resp.value.json);
    if entry.Failure? {
      return Failure(entry.error);
    }
    r := Success(DecodeGroup(entry.value));
  }

  /** The request `UpdateGroup` sends. */
  function UpdateGroupRequest(c: Client, id: string, description: string, members: Option<seq<string>>): Request
  {
    c.NewRequest(PATCH, GroupPath(id), Some(AttrsRequest(UpdatePayload(description, members))))
  }

  /** Update requests for one group differ whenever their description or member list differ. */
  lemma UpdateGroupRequestInjective(c: Client, id: string, description1: string, members1: Option<seq<string>>,
                                    description2: string, members2: Option<seq<string>>)
    requires UpdateGroupRequest(c, id, description1, members1) == UpdateGroupRequest(c, id, description2, members2)
    ensures description1 == description2 && members1 == members2
  {
    var attrs1 := UpdatePayload(description1, members1);
    var attrs2 := UpdatePayload(description2, members2);
    NewRequestInjective(c, PATCH, GroupPath(id), Some(AttrsRequest(attrs1)), PATCH, GroupPath(id), Some(AttrsRequest(attrs2)));
    assert attrs1 == AttrsRequest(attrs1).fields["attrs"].fields;
    if description1 != "" {
      StrArrInjective([description1], [description2]);
    }
    if members1.Some? {
      StrArrInjective(members1.value, members2.value);
    }
  }

  /** `UpdateGroup`: the payload is filled in step by step, then sent with PATCH. */
  method UpdateGroup(c: Client, net: Network, id: string, description: string, members: Option<seq<string>>)
    returns (err: Option<ApiError>)
    modifies net
    ensures net.log == old(net.log) + [UpdateGroupRequest(c, id, description, members)]
    ensures err == Err(Outcome(At(net.replies, |old(net.log)|)))
  {
    var attrs: map<string, Json> := map[];
    if description != "" {
      attrs := attrs["description" := StrArr([description])];
    }
    if members.Some? {
      attrs := attrs["member" := StrArr(members.value)];
    }
    assert attrs == UpdatePayload(description, members);
    var resp := c.DoRequest(net, PATCH, GroupPath(id), Some(AttrsRequest(attrs)));
    err := Err(resp);
  }

  /** `DeleteGroup`. */
  method DeleteGroup(c: Client, net: Network, id: string) returns (err: Option<ApiError>)
    modifies net
    ensures net.log == old(net.log) + [c.NewRequest(DELETE, GroupPath(id), None)]
    ensures err == Err(Outcome(At(net.replies, |old(net.log)|)))
  {
    var resp := c.DoRequest(net, DELETE, GroupPath(id), None);
    err := Err(resp);
  }

  /** `AddGroupMembers`: POST to the member attribute. */
  method AddGroupMembers(c: Client, net: Network, groupId: string, memberIds: seq<string>)
    returns (err: Option<ApiError>)
    modifies net
    ensures net.log == old(net.log) + [c.NewRequest(POST, MemberAttrPath(groupId), Some(MembersBody(memberIds)))]
    ensures err == Err(Outcome(At(net.replies, |old(net.log)|)))
  {
    var resp := c.DoRequest(net, POST, MemberAttrPath(groupId), Some(MembersBody(memberIds)));
    err := Err(resp);
  }

  /** `RemoveGroupMembers`: DELETE on the same attribute, with the same body. */
  method RemoveGroupMembers(c: Client, net: Network, groupId: string, memberIds: seq<string>)
    returns (err: Option<ApiError>)
    modifies net
    ensures net.log == old(net.log) + [c.NewRequest(DELETE, MemberAttrPath(groupId), Some(MembersBody(memberIds)))]
    ensures err == Err(Outcome(At(net.replies, |old(net.log)|)))
  {
    var resp := c.DoRequest(net, DELETE, MemberAttrPath(groupId), Some(MembersBody(memberIds)));
    err := Err(resp);
  }
}
