/**
 * The `kanidm_service_account` resource (internal/provider/service_account_resource.go): the
 * API token is captured once, on create, and carried through every later state.
 */
module ServiceAccountResource {
  import opened Wrappers
  import opened Attrs
  import opened Transport
  import opened Tf
  import opened ServiceAccounts

  /** `serviceAccountResourceModel`. */
  datatype SaModel = SaModel(id: TfValue<string>, apiToken: TfValue<string>)

  /**
   * Create: the two-step client create; the state gets the ID and the minted token, and any
   * failure of either step is one error.
   */
  method Create(c: Client, net: Network, plan: SaModel) returns (r: Result<SaModel, Diag>)
    modifies net
    ensures old(net.log) <= net.log
    ensures var name := ValueString(plan.id);
            var create := c.NewRequest(POST, "/v1/service_account", Some(AttrsRequest(CreatePayload(name))));
            var first := Outcome(At(net.replies, |old(net.log)|));
            var minted := TokenOutcome(At(net.replies, |old(net.log)| + 1));
            && net.log == old(net.log) + (if first.Success? then [create, TokenRequest(c, name, ManagedTokenLabel, None)] else [create])
            && (r.Success? <==> first.Success? && minted.Success?)
            && (r.Success? ==> r.value == SaModel(Known(name), Known(minted.value)))
            && (r.Failure? ==> r.error == Error("Error Creating Service Account"))
  {
    var sa := CreateServiceAccount(c, net, ValueString(plan.id));
    if sa.Failure? {
      return Failure(Error("Error Creating Service Account"));
    }
    var state := plan;
    state := state.(id := Known(sa.value.id));
    state := state.(apiToken := Known(sa.value.apiToken));
    r := Success(state);
  }

  /** Read: refreshes only the ID; the token cannot be read back and stays as stored. */
  method Read(c: Client, net: Network, state: SaModel) returns (r: ReadOutcome<SaModel>)
    modifies net
    ensures net.log == old(net.log) + [c.NewRequest(GET, AccountPath(ValueString(state.id)), None)]
    ensures var got := GetServiceAccountOutcome(At(net.replies, |old(net.log)|));
            && (got.Failure? ==> r == ReadError(got.error, "Error Reading Service Account"))
            && (got.Success? ==> r == Refreshed(SaModel(Known(got.value.id), state.apiToken)))
  {
    var sa := GetServiceAccount(c, net, ValueString(state.id));
    if sa.Failure? {
      if sa.error == NotFound {
        return Removed;
      }
      return ReadFailed(Error("Error Reading Service Account"));
    }
    var next := state.(id := Known(sa.value.id));
    r := Refreshed(next);
  }

  /** Update: nothing is updatable, so no call is made; the plan keeps the stored token. */
  method Update(plan: SaModel, state: SaModel) returns (r: SaModel)
    ensures r.id == plan.id && r.apiToken == state.apiToken
  {
    r := plan;
    r := r.(apiToken := state.apiToken);
  }

  /** Delete: an account that is already gone counts as deleted. */
  method Delete(c: Client, net: Network, state: SaModel) returns (d: Option<Diag>)
    modifies net
    ensures net.log == old(net.log) + [c.NewRequest(DELETE, AccountPath(ValueString(state.id)), None)]
    ensures d == DeleteResult(Err(Outcome(At(net.replies, |old(net.log)|))), "Error Deleting Service Account")
  {
    var err := DeleteServiceAccount(c, net, ValueString(state.id));
    if err.Some? && err.value != NotFound {
      return Some(Error("Error Deleting Service Account"));
    }
    d := None;
  }
}
