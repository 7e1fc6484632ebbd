/**
 * The `kanidm_group` resource (internal/provider/group_resource.go): a null description is sent
 * as "", members are only sent when known, and the stored member set is never null.
 */
module GroupResource {
  import opened Wrappers
  import opened Attrs
  import opened Transport
  import opened Tf
  import opened Groups

  /** `groupResourceModel`. */
  datatype GroupModel = GroupModel(id: TfValue<string>, description: TfValue<string>, members: TfValue<set<string>>)

  /**
   * The state for a fetched group: ID and description as fetched, and the members always as a
   * known set, empty when the group has none. A nil member list would become a null set through
   * `SetValueFrom`; it is mapped to the empty set here only because `DecodeGroup` never yields one.
   */
  function GroupState(g: Group): (m: GroupModel)
    ensures m.id == Known(g.id) && m.description == Known(g.description)
    ensures m.members.Known?
    ensures forall x :: x in m.members.value <==> g.members.Some? && x in g.members.value
  {
    GroupModel(Known(g.id), Known(g.description),
               Known(if g.members.Some? then set x | x in g.members.value else {}))
  }

  /** A group without a `member` attribute is stored with a known, empty member set. */
  lemma AbsentMembersStoredEmpty(e: Entry)
    requires "member" !in e
    ensures GroupState(DecodeGroup(e)).members == Known({})
  {
    var g := DecodeGroup(e);
    assert g.members == Some([]);
    var m := GroupState(g).members.value;
    assert forall x :: x !in m;
    assert m == {};
  }

  /** Create sends a member update only for a known, non-empty plan set. */
  predicate AddsMembers(plan: GroupModel) {
    plan.members.Known? && plan.members.value != {}
  }

  /** The outcome of a handler's read-back: its state, or the error with the given summary. */
  function FetchedState(fetched: Result<Group, ApiError>, summary: string): Result<GroupModel, Diag>
  {
    if fetched.Failure? then Failure(Error(summary)) else Success(GroupState(fetched.value))
  }

  /** Create gets as far as the member update (the create is answered by reply `k`). */
  predicate UpdateSent(plan: GroupModel, replies: seq<Reply>, k: nat) {
    AddsMembers(plan) && Outcome(At(replies, k)).Success?
  }

  /** The member list `UpdateGroup` is given: nil unless the plan set is known. */
  ghost predicate MembersArg(plan: TfValue<set<string>>, arg: Option<seq<string>>) {
    if plan.Known? then arg.Some? && Enumerates(arg.value, plan.value) else arg.None?
  }

  /**
   * What Create returns, given the replies from index `k` on: each failed step is its own
   * error; on success the state is the group as read back, so its member set is known.
   */
  function CreateOutcome(plan: GroupModel, replies: seq<Reply>, k: nat): Result<GroupModel, Diag>
  {
    if Outcome(At(replies, k)).Failure? then Failure(Error("Error Creating Group"))
    else if AddsMembers(plan) && Outcome(At(replies, k + 1)).Failure? then Failure(Error("Error Adding Members"))
    else FetchedState(GetGroupOutcome(At(replies, if AddsMembers(plan) then k + 2 else k + 1)), "Error Reading Group")
  }

  /** The requests of Create's member step: one `UpdateGroup` listing `sent`, when the plan adds members. */
  function MemberStep(c: Client, id: string, plan: GroupModel, sent: seq<string>): seq<Request> {
    if AddsMembers(plan) then [UpdateGroupRequest(c, id, "", Some(sent))] else []
  }

  /**
   * The requests Create sends, given the replies from index `k` on: the create; unless it
   * fails, the member step; unless that fails, the read-back.
   */
  function CreateLog(c: Client, plan: GroupModel, replies: seq<Reply>, k: nat, sent: seq<string>): seq<Request> {
    var id := ValueString(plan.id);
    [CreateGroupRequest(c, id, ValueString(plan.description))]
    + if Outcome(At(replies, k)).Failure? then []
      else MemberStep(c, id, plan, sent)
           + if UpdateSent(plan, replies, k) && Outcome(At(replies, k + 1)).Failure? then []
             else [c.NewRequest(GET, GroupPath(id), None)]
  }

  /**
   * The member step of Create: a known, non-empty plan set is written with `UpdateGroup` and an
   * empty description, so only the membership changes; otherwise nothing is sent. `sent` is the
   * order in which the set's elements were listed.
   */
  method AddPlannedMembers(c: Client, net: Network, id: string, plan: GroupModel)
    returns (err: Option<ApiError>, ghost sent: seq<string>)
    modifies net
    ensures net.log == old(net.log) + MemberStep(c, id, plan, sent)
    ensures AddsMembers(plan) ==> Enumerates(sent, plan.members.value) && err == Err(Outcome(At(net.replies, |old(net.log)|)))
    ensures !AddsMembers(plan) ==> err.None?
  {
    sent := [];
    err := None;
    if plan.members.Known? {
      var memberIds := SetElements(plan.members.value);
      sent := memberIds;
      if |memberIds| > 0 {
        err := UpdateGroup(c, net, id, "", Some(memberIds));
      }
    }
  }

  /**
   * The first two steps of Create: the client create with the description or "", then the
   * member step. The result is the new group's ID, or the error of the step that failed.
   */
  method CreateWithMembers(c: Client, net: Network, plan: GroupModel)
    returns (r: Result<string, Diag>, ghost sent: seq<string>)
    modifies net
    ensures var k := |old(net.log)|;
            var create := CreateGroupRequest(c, ValueString(plan.id), ValueString(plan.description));
            && (Outcome(At(net.replies, k)).Failure? ==>
                  net.log == old(net.log) + [create] && r == Failure(Error("Error Creating Group")))
            && (Outcome(At(net.replies, k)).Success? ==>
                  && net.log == old(net.log) + [create] + MemberStep(c, ValueString(plan.id), plan, sent)
                  && (AddsMembers(plan) ==> Enumerates(sent, plan.members.value))
                  && (UpdateSent(plan, net.replies, k) && Outcome(At(net.replies, k + 1)).Failure? ==>
                        r == Failure(Error("Error Adding Members")))
                  && (!(UpdateSent(plan, net.replies, k) && Outcome(At(net.replies, k + 1)).Failure?) ==>
                        r == Success(ValueString(plan.id))))
  {
    sent := [];
    var description := "";
    if !plan.description.Null? {
      description := ValueString(plan.description);
    }
    var group := CreateGroup(c, net, ValueString(plan.id), description);
    if group.Failure? {
      return Failure(Error("Error Creating Group")), sent;
    }
    var err;
    err, sent := AddPlannedMembers(c, net, group.value.id, plan);
    if err.Some? {
      return Failure(Error("Error Adding Members")), sent;
    }
    r := Success(group.value.id);
  }

  /**
   * Create: the client create, the member step, then the read-back, which decides the state.
   */
  method Create(c: Client, net: Network, plan: GroupModel) returns (r: Result<GroupModel, Diag>, ghost sent: seq<string>)
    modifies net
    ensures net.log == old(net.log) + CreateLog(c, plan, net.replies, |old(net.log)|, sent)
    ensures UpdateSent(plan, net.replies, |old(net.log)|) ==> Enumerates(sent, plan.members.value)
    ensures r == CreateOutcome(plan, net.replies, |old(net.log)|)
  {
    ghost var k := |net.log|;
    var id;
    id, sent := CreateWithMembers(c, net, plan);
    if id.Failure? {
      return Failure(id.error), sent;
    }
    assert |net.log| == if AddsMembers(plan) then k + 2 else k + 1;
    var created := GetGroup(c, net, id.value);
    if created.Failure? {
      return Failure(Error("Error Reading Group")), sent;
    }
    r := Success(GroupState(created.value));
  }

  /**
   * Create updates the group only once it is created and only when the plan adds members, and
   * then with an empty description, so only the membership changes, and the listed members.
   */
  lemma CreateMemberRequests(c: Client, plan: GroupModel, replies: seq<Reply>, k: nat, sent: seq<string>)
    ensures var id := ValueString(plan.id);
            forall d, m :: UpdateGroupRequest(c, id, d, m) in CreateLog(c, plan, replies, k, sent) <==>
              Outcome(At(replies, k)).Success? && AddsMembers(plan) && d == "" && m == Some(sent)
  {
    var id := ValueString(plan.id);
    forall d, m | UpdateGroupRequest(c, id, d, m) == UpdateGroupRequest(c, id, "", Some(sent))
      ensures d == "" && m == Some(sent)
    {
      UpdateGroupRequestInjective(c, id, d, m, "", Some(sent));
    }
  }

  /** Read: a group that is gone is removed from state; otherwise every field is refreshed. */
  method Read(c: Client, net: Network, state: GroupModel) returns (r: ReadOutcome<GroupModel>)
    modifies net
    ensures net.log == old(net.log) + [c.NewRequest(GET, GroupPath(ValueString(state.id)), None)]
    ensures var got := GetGroupOutcome(At(net.replies, |old(net.log)|));
            && (got.Failure? ==> r == ReadError(got.error, "Error Reading Group"))
            && (got.Success? ==> r == Refreshed(GroupState(got.value)))
  {
    var group := GetGroup(c, net, ValueString(state.id));
    if group.Failure? {
      if group.error == NotFound {
        return Removed;
      }
      return ReadFailed(Error("Error Reading Group"));
    }
    r := Refreshed(GroupState(group.value));
  }

  /**
   * Update: one `UpdateGroup` with the description or "" and the member list, nil when the plan
   * set is null or unknown (membership left as it is); then the read-back decides the state.
   * `sent` is the member list as sent.
   */
  method Update(c: Client, net: Network, plan: GroupModel)
    returns (r: Result<GroupModel, Diag>, ghost sent: Option<seq<string>>)
    modifies net
    ensures MembersArg(plan.members, sent)
    ensures var k := |old(net.log)|;
            var id := ValueString(plan.id);
            var first := Outcome(At(net.replies, k));
            && net.log == old(net.log) + [UpdateGroupRequest(c, id, ValueString(plan.description), sent)]
                 + (if first.Success? then [c.NewRequest(GET, GroupPath(id), None)] else [])
            && (first.Failure? ==> r == Failure(Error("Error Updating Group")))
            && (first.Success? ==> r == FetchedState(GetGroupOutcome(At(net.replies, k + 1)), "Error Reading Group"))
  {
    var memberIds: Option<seq<string>> := None;
    if plan.members.Known? {
      var elements := SetElements(plan.members.value);
      memberIds := Some(elements);
    }
    sent := memberIds;
    var description := "";
    if !plan.description.Null? {
      description := ValueString(plan.description);
    }
    var err := UpdateGroup(c, net, ValueString(plan.id), description, memberIds);
    if err.Some? {
      return Failure(Error("Error Updating Group")), sent;
    }
    var updated := GetGroup(c, net, ValueString(plan.id));
    if updated.Failure? {
      return Failure(Error("Error Reading Group")), sent;
    }
    r := Success(GroupState(updated.value));
  }

  /** Delete: a group that is already gone counts as deleted. */
  method Delete(c: Client, net: Network, state: GroupModel) returns (d: Option<Diag>)
    modifies net
    ensures net.log == old(net.log) + [c.NewRequest(DELETE, GroupPath(ValueString(state.id)), None)]
    ensures d == DeleteResult(Err(Outcome(At(net.replies, |old(net.log)|))), "Error Deleting Group")
  {
    var err := DeleteGroup(c, net, ValueString(state.id));
    if err.Some? && err.value != NotFound {
      return Some(Error("Error Deleting Group"));
    }
    d := None;
  }
}
