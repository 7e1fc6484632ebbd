/**
 * The `kanidm_oauth2_basic` resource (internal/provider/oauth2_basic_resource.go): Create with
 * the configuration and the scope maps, Read with the public-client check and the secret
 * back-fill, Update with the scope-map reconciliation, and Delete.
 */
module OAuth2Resource {
  import opened Wrappers
  import opened Attrs
  import opened Transport
  import opened Tf
  import opened OAuth2

  /** `scopeMapModel`; both attributes are required, so they are known when a handler runs. */
  datatype ScopeMap = ScopeMap(group: string, scopes: seq<string>)

  /** `oauth2BasicResourceModel`; the scope-map set as the list of entries `ElementsAs` yields. */
  datatype OAuth2Model = OAuth2Model(
    name: TfValue<string>,
    displayName: TfValue<string>,
    origin: TfValue<string>,
    redirectUris: TfValue<seq<string>>,
    scopeMaps: TfValue<seq<ScopeMap>>,
    clientSecret: TfValue<string>)

  /** The entries of a scope-map set; a null set has none. */
  function Entries(v: TfValue<seq<ScopeMap>>): seq<ScopeMap> {
    if v.Known? then v.value else []
  }

  /* ---------------------------------------------------------------- Scope maps by group */

  /** The map the Update loops build: each entry in turn, so a later entry for a group wins. */
  function ScopeMapsByGroup(es: seq<ScopeMap>): map<string, seq<string>>
    decreases |es|
  {
    if es == [] then map[]
    else ScopeMapsByGroup(es[..|es| - 1])[es[|es| - 1].group := es[|es| - 1].scopes]
  }

  /** The groups some entry names. */
  function Groups(es: seq<ScopeMap>): set<string> {
    set i | 0 <= i < |es| :: es[i].group
  }

  /** The map has a key for exactly the groups the entries name. */
  lemma {:induction false} ByGroupKeys(es: seq<ScopeMap>)
    ensures ScopeMapsByGroup(es).Keys == Groups(es)
  {
    if es != [] {
      var init := es[..|es| - 1];
      ByGroupKeys(init);
      forall g
        ensures g in Groups(es) <==> g in Groups(init) || g == es[|es| - 1].group
      {
        if g in Groups(es) {
          var i :| 0 <= i < |es| && es[i].group == g;
          if i < |es| - 1 {
            assert init[i] == es[i];
          }
        }
        if g in Groups(init) {
          var i :| 0 <= i < |init| && init[i].group == g;
          assert es[i] == init[i];
        }
      }
    }
  }

  /** If a group appears more than once, the entry no later entry overrides decides its scopes. */
  lemma {:induction false} LaterEntryWins(es: seq<ScopeMap>, i: nat)
    requires i < |es|
    requires forall j :: i < j < |es| ==> es[j].group != es[i].group
    ensures es[i].group in ScopeMapsByGroup(es) && ScopeMapsByGroup(es)[es[i].group] == es[i].scopes
  {
    if i < |es| - 1 {
      var init := es[..|es| - 1];
      assert init[i] == es[i];
      forall j | i < j < |init|
        ensures init[j].group != init[i].group
      {
        assert init[j] == es[j];
      }
      LaterEntryWins(init, i);
    }
  }

  /** The loop over the entries that fills a map from group to scopes. */
  method BuildScopeMaps(es: seq<ScopeMap>) returns (byGroup: map<string, seq<string>>)
    ensures byGroup == ScopeMapsByGroup(es)
  {
    byGroup := map[];
    for i := 0 to |es|
      invariant byGroup == ScopeMapsByGroup(es[..i])
    {
      assert es[..i + 1][..i] == es[..i];
      byGroup := byGroup[es[i].group := es[i].scopes];
    }
    assert es[..|es|] == es;
  }

  /** `es` lists each group of `byGroup` with its scopes, once each, in some order. */
  ghost predicate ListsMap(es: seq<ScopeMap>, byGroup: map<string, seq<string>>) {
    && |es| == |byGroup.Keys|
    && (forall e :: e in es ==> e.group in byGroup && byGroup[e.group] == e.scopes)
    && (forall g :: g in byGroup ==> ScopeMap(g, byGroup[g]) in es)
  }

  /* ---------------------------------------------------------------- Scope-map requests */

  /** The scope-map set requests for some entries, in their order. */
  function SetRequests(c: Client, rs: string, es: seq<ScopeMap>): seq<Request> {
    seq(|es|, i requires 0 <= i < |es| => SetScopeMapRequest(c, rs, es[i].group, es[i].scopes))
  }

  /** The scope-map delete requests for some groups, in their order. */
  function DeleteRequests(c: Client, rs: string, groups: seq<string>): seq<Request> {
    seq(|groups|, i requires 0 <= i < |groups| => DeleteScopeMapRequest(c, rs, groups[i]))
  }

  /** The set requests for some entries name exactly those entries, and none of them is a delete. */
  lemma SetRequestsMembers(c: Client, rs: string, es: seq<ScopeMap>)
    ensures forall g, s :: SetScopeMapRequest(c, rs, g, s) in SetRequests(c, rs, es) <==> ScopeMap(g, s) in es
    ensures forall g :: DeleteScopeMapRequest(c, rs, g) !in SetRequests(c, rs, es)
  {
    var reqs := SetRequests(c, rs, es);
    forall g, s
      ensures SetScopeMapRequest(c, rs, g, s) in reqs <==> ScopeMap(g, s) in es
    {
      if SetScopeMapRequest(c, rs, g, s) in reqs {
        var i :| 0 <= i < |reqs| && reqs[i] == SetScopeMapRequest(c, rs, g, s);
        ScopeMapRequestsDistinct(c, rs, g, s, es[i].group, es[i].scopes);
      }
      if ScopeMap(g, s) in es {
        var i :| 0 <= i < |es| && es[i] == ScopeMap(g, s);
        assert reqs[i] == SetScopeMapRequest(c, rs, g, s);
      }
    }
  }

  /** The delete requests for some groups name exactly those groups, and none of them is a set. */
  lemma DeleteRequestsMembers(c: Client, rs: string, groups: seq<string>)
    ensures forall g :: DeleteScopeMapRequest(c, rs, g) in DeleteRequests(c, rs, groups) <==> g in groups
    ensures forall g, s :: SetScopeMapRequest(c, rs, g, s) !in DeleteRequests(c, rs, groups)
  {
    var reqs := DeleteRequests(c, rs, groups);
    forall g
      ensures DeleteScopeMapRequest(c, rs, g) in reqs <==> g in groups
    {
      if DeleteScopeMapRequest(c, rs, g) in reqs {
        var i :| 0 <= i < |reqs| && reqs[i] == DeleteScopeMapRequest(c, rs, g);
        ScopeMapRequestsDistinct(c, rs, g, [], groups[i], []);
      }
      if g in groups {
        var i :| 0 <= i < |groups| && groups[i] == g;
        assert reqs[i] == DeleteScopeMapRequest(c, rs, g);
      }
    }
  }

  /**
   * Calls without a result, in order, stopping at the first that fails, which reports the
   * given summary.
   */
  function CallsRun(reqs: seq<Request>, summary: string, replies: seq<Reply>, log: seq<Request>): Run<()>
    decreases |reqs|
  {
    if reqs == [] then Run(log, Success(()))
    else
      var prev := CallsRun(reqs[..|reqs| - 1], summary, replies, log);
      if prev.outcome.Failure? then prev
      else Checked(replies, prev.log, reqs[|reqs| - 1], summary)
  }

  /**
   * A call sequence sends only its own requests, all of them when it succeeds, and fails
   * only with its summary.
   */
  lemma {:induction false} CallsRunSent(reqs: seq<Request>, summary: string, replies: seq<Reply>, log: seq<Request>)
    ensures var run := CallsRun(reqs, summary, replies, log);
            && log <= run.log
            && (forall r :: r in Since(run, log) ==> r in reqs)
            && (run.outcome.Success? ==> Since(run, log) == reqs)
            && (run.outcome.Failure? ==> run.outcome.error == Error(summary))
  {
    if reqs != [] {
      var init := reqs[..|reqs| - 1];
      CallsRunSent(init, summary, replies, log);
      var prev := CallsRun(init, summary, replies, log);
      assert reqs == init + [reqs[|reqs| - 1]];
      if prev.outcome.Success? {
        var run := CallsRun(reqs, summary, replies, log);
        assert Since(run, log) == Since(prev, log) + [reqs[|reqs| - 1]];
      }
    }
  }

  /** Sending one more call after a run of calls that succeeded. */
  lemma CallsRunSnoc(reqs: seq<Request>, req: Request, summary: string, replies: seq<Reply>, log: seq<Request>)
    requires CallsRun(reqs, summary, replies, log).outcome.Success?
    ensures CallsRun(reqs + [req], summary, replies, log) == Checked(replies, CallsRun(reqs, summary, replies, log).log, req, summary)
  {
    assert (reqs + [req])[..|reqs|] == reqs;
  }

  /** Once a call fails, no later call is sent. */
  lemma {:induction false} CallsRunStops(reqs: seq<Request>, more: seq<Request>, summary: string,
                                         replies: seq<Reply>, log: seq<Request>)
    requires CallsRun(reqs, summary, replies, log).outcome.Failure?
    ensures CallsRun(reqs + more, summary, replies, log) == CallsRun(reqs, summary, replies, log)
    decreases |more|
  {
    if more == [] {
      assert reqs + more == reqs;
    } else {
      var init := more[..|more| - 1];
      CallsRunStops(reqs, init, summary, replies, log);
      assert (reqs + more)[..|reqs + more| - 1] == reqs + init;
    }
  }

  /** The scope maps of some entries in their order, as Create and Update set them; the first failure stops it. */
  method SetScopeMapsInOrder(c: Client, net: Network, rs: string, es: seq<ScopeMap>) returns (r: Result<(), Diag>)
    modifies net
    ensures Run(net.log, r) == CallsRun(SetRequests(c, rs, es), "Error Setting Scope Map", net.replies, old(net.log))
  {
    ghost var reqs := SetRequests(c, rs, es);
    for i := 0 to |es|
      invariant Run(net.log, Success(())) == CallsRun(reqs[..i], "Error Setting Scope Map", net.replies, old(net.log))
    {
      assert reqs[..i + 1] == reqs[..i] + [reqs[i]];
      CallsRunSnoc(reqs[..i], reqs[i], "Error Setting Scope Map", net.replies, old(net.log));
      var err := SetScopeMap(c, net, rs, es[i].group, es[i].scopes);
      if err.Some? {
        assert reqs == reqs[..i + 1] + reqs[i + 1..];
        CallsRunStops(reqs[..i + 1], reqs[i + 1..], "Error Setting Scope Map", net.replies, old(net.log));
        return Failure(Error("Error Setting Scope Map"));
      }
    }
    assert reqs[..|es|] == reqs;
    r := Success(());
  }

  /** The delete loop of Update over the groups to drop, in the given order; the first failure stops it. */
  method DeleteScopeMapsInOrder(c: Client, net: Network, rs: string, groups: seq<string>) returns (r: Result<(), Diag>)
    modifies net
    ensures Run(net.log, r) == CallsRun(DeleteRequests(c, rs, groups), "Error Deleting Scope Map", net.replies, old(net.log))
  {
    ghost var reqs := DeleteRequests(c, rs, groups);
    for i := 0 to |groups|
      invariant Run(net.log, Success(())) == CallsRun(reqs[..i], "Error Deleting Scope Map", net.replies, old(net.log))
    {
      assert reqs[..i + 1] == reqs[..i] + [reqs[i]];
      CallsRunSnoc(reqs[..i], reqs[i], "Error Deleting Scope Map", net.replies, old(net.log));
      var err := DeleteScopeMap(c, net, rs, groups[i]);
      if err.Some? {
        assert reqs == reqs[..i + 1] + reqs[i + 1..];
        CallsRunStops(reqs[..i + 1], reqs[i + 1..], "Error Deleting Scope Map", net.replies, old(net.log));
        return Failure(Error("Error Deleting Scope Map"));
      }
    }
    assert reqs[..|groups|] == reqs;
    r := Success(());
  }

  /** The entries for some groups of a map, each with its scopes. */
  function EntriesOf(groups: seq<string>, byGroup: map<string, seq<string>>): (es: seq<ScopeMap>)
    requires forall g :: g in groups ==> g in byGroup
    ensures |es| == |groups|
    ensures forall i :: 0 <= i < |groups| ==> es[i] == ScopeMap(groups[i], byGroup[groups[i]])
  {
    seq(|groups|, i requires 0 <= i < |groups| => ScopeMap(groups[i], byGroup[groups[i]]))
  }

  /** The reconciliation of Update: the deletes, then, unless one failed, the sets. */
  function ReconcileRun(c: Client, rs: string, deleted: seq<string>, sent: seq<ScopeMap>,
                        replies: seq<Reply>, log: seq<Request>): Run<()>
  {
    var dropped := CallsRun(DeleteRequests(c, rs, deleted), "Error Deleting Scope Map", replies, log);
    if dropped.outcome.Failure? then dropped
    else CallsRun(SetRequests(c, rs, sent), "Error Setting Scope Map", replies, dropped.log)
  }

  /** An enumeration of a map's groups, each paired with its scopes, lists the map. */
  lemma EntriesOfListsMap(groups: seq<string>, byGroup: map<string, seq<string>>)
    requires Enumerates(groups, byGroup.Keys)
    ensures ListsMap(EntriesOf(groups, byGroup), byGroup)
  {
    var es := EntriesOf(groups, byGroup);
    forall g | g in byGroup
      ensures ScopeMap(g, byGroup[g]) in es
    {
      var i :| 0 <= i < |groups| && groups[i] == g;
      assert es[i] == ScopeMap(g, byGroup[g]);
    }
  }

  /**
   * The reconciliation of Update. Each loop runs over a map in Go's unspecified order, modelled
   * as an enumeration chosen before it starts: `deleted` lists the groups of the old map the new
   * one lacks, and `sent` every group of the new map with its scopes, changed or not.
   */
  method Reconcile(c: Client, net: Network, rs: string, oldByGroup: map<string, seq<string>>,
                   newByGroup: map<string, seq<string>>)
    returns (r: Result<(), Diag>, ghost deleted: seq<string>, ghost sent: seq<ScopeMap>)
    modifies net
    ensures Run(net.log, r) == ReconcileRun(c, rs, deleted, sent, net.replies, old(net.log))
    ensures Enumerates(deleted, oldByGroup.Keys - newByGroup.Keys)
    ensures ListsMap(sent, newByGroup)
  {
    var dropped := SetElements(oldByGroup.Keys - newByGroup.Keys);
    var groups := SetElements(newByGroup.Keys);
    var entries := EntriesOf(groups, newByGroup);
    deleted, sent := dropped, entries;
    EntriesOfListsMap(groups, newByGroup);
    r := DeleteScopeMapsInOrder(c, net, rs, dropped);
    if r.Failure? {
      return;
    }
    r := SetScopeMapsInOrder(c, net, rs, entries);
  }

  /* ---------------------------------------------------------------- Handlers */

  /**
   * The state after a read-back: the fetched name, display name and origin, and the fetched
   * redirect URIs, null when there are none; the scope maps and the secret are kept.
   */
  function RefreshedState(m: OAuth2Model, cl: OAuth2Client): (r: OAuth2Model)
    ensures r.name == Known(cl.name) && r.displayName == Known(cl.displayName) && r.origin == Known(cl.origin)
    ensures r.redirectUris.Null? <==> cl.redirectUris.None? || cl.redirectUris.value == []
    ensures !r.redirectUris.Null? ==> r.redirectUris == Known(cl.redirectUris.value) && cl.redirectUris.value != []
    ensures r.scopeMaps == m.scopeMaps && r.clientSecret == m.clientSecret
  {
    m.(name := Known(cl.name), displayName := Known(cl.displayName), origin := Known(cl.origin),
       redirectUris := ListOrNull(cl.redirectUris))
  }

  /** The read-back closing Create and Update. */
  function ReadBackRun(c: Client, name: string, m: OAuth2Model, replies: seq<Reply>, log: seq<Request>): Run<OAuth2Model> {
    var fetched := log + [c.NewRequest(GET, ClientPath(name), None)];
    match GetClientOutcome(At(replies, |log|))
    case Failure(_) => Run(fetched, Failure(Error("Error Reading OAuth2 Client")))
    case Success(cl) => Run(fetched, Success(RefreshedState(m, cl)))
  }

  method ReadBack(c: Client, net: Network, name: string, m: OAuth2Model) returns (r: Result<OAuth2Model, Diag>)
    modifies net
    ensures Run(net.log, r) == ReadBackRun(c, name, m, net.replies, old(net.log))
  {
    var fetched := GetClient(c, net, name);
    if fetched.Failure? {
      return Failure(Error("Error Reading OAuth2 Client"));
    }
    var next := m;
    next := next.(name := Known(fetched.value.name));
    next := next.(displayName := Known(fetched.value.displayName));
    next := next.(origin := Known(fetched.value.origin));
    if fetched.value.redirectUris.Some? && |fetched.value.redirectUris.value| > 0 {
      next := next.(redirectUris := Known(fetched.value.redirectUris.value));
    } else {
      next := next.(redirectUris := Null);
    }
    r := Success(next);
  }

  /**
   * The configuration steps of Create for client `name`: the client update with the planned
   * display name, origin and redirect URIs (nil when the plan list is null or unknown); the
   * plan's scope maps in order; then the read-back, storing the secret the create returned.
   */
  function ConfigureRun(c: Client, name: string, plan: OAuth2Model, secret: string,
                        replies: seq<Reply>, log: seq<Request>): Run<OAuth2Model>
  {
    var configured := Checked(replies, log,
      UpdateClientRequest(c, name, ValueString(plan.displayName), ValueString(plan.origin), KnownList(plan.redirectUris)),
      "Error Setting OAuth2 Configuration");
    if configured.outcome.Failure? then Run(configured.log, Failure(configured.outcome.error))
    else
      var mapped := CallsRun(SetRequests(c, name, Entries(plan.scopeMaps)), "Error Setting Scope Map", replies, configured.log);
      if mapped.outcome.Failure? then Run(mapped.log, Failure(mapped.outcome.error))
      else ReadBackRun(c, name, plan.(clientSecret := Known(secret)), replies, mapped.log)
  }

  /** Create: the basic-client create (the create and the secret fetch), then the configuration. */
  function CreateRun(c: Client, plan: OAuth2Model, replies: seq<Reply>, log: seq<Request>): Run<OAuth2Model> {
    var name := ValueString(plan.name);
    var created := log + [CreateBasicRequest(c, name, ValueString(plan.displayName), ValueString(plan.origin))];
    if Outcome(At(replies, |log|)).Failure? then Run(created, Failure(Error("Error Creating OAuth2 Basic Client")))
    else
      var fetched := created + [c.NewRequest(GET, BasicSecretPath(name), None)];
      match SecretOutcome(At(replies, |created|))
      case Failure(_) => Run(fetched, Failure(Error("Error Creating OAuth2 Basic Client")))
      case Success(secret) => ConfigureRun(c, name, plan, secret, replies, fetched)
  }

  method Configure(c: Client, net: Network, plan: OAuth2Model, created: OAuth2Client) returns (r: Result<OAuth2Model, Diag>)
    modifies net
    ensures Run(net.log, r) == ConfigureRun(c, created.name, plan, created.clientSecret, net.replies, old(net.log))
  {
    var redirectURIs: Option<seq<string>> := None;
    if !plan.redirectUris.Null? && !plan.redirectUris.Unknown? {
      redirectURIs := Some(plan.redirectUris.value);
    }
    var err := UpdateClient(c, net, created.name, ValueString(plan.displayName), ValueString(plan.origin), redirectURIs);
    if err.Some? {
      return Failure(Error("Error Setting OAuth2 Configuration"));
    }
    if !plan.scopeMaps.Null? && !plan.scopeMaps.Unknown? {
      var mapped := SetScopeMapsInOrder(c, net, created.name, plan.scopeMaps.value);
      if mapped.Failure? {
        return Failure(mapped.error);
      }
    }
    r := ReadBack(c, net, created.name, plan.(clientSecret := Known(created.clientSecret)));
  }

  method Create(c: Client, net: Network, plan: OAuth2Model) returns (r: Result<OAuth2Model, Diag>)
    modifies net
    ensures Run(net.log, r) == CreateRun(c, plan, net.replies, old(net.log))
  {
    ghost var log := net.log;
    ghost var name := ValueString(plan.name);
    assert |log + [CreateBasicRequest(c, name, ValueString(plan.displayName), ValueString(plan.origin))]| == |log| + 1;
    var created := CreateBasicClient(c, net, ValueString(plan.name), ValueString(plan.displayName), ValueString(plan.origin));
    if created.Failure? {
      return Failure(Error("Error Creating OAuth2 Basic Client"));
    }
    r := Configure(c, net, plan, created.value);
  }

  /** Read fetches the secret only when the stored one is null or empty (after an import). */
  predicate NeedsSecret(state: OAuth2Model) {
    state.clientSecret.Null? || ValueString(state.clientSecret) == ""
  }

  /**
   * Read: a missing client is removed from state; a public client is an error; otherwise the
   * fields are refreshed and a missing secret is fetched, a failed fetch leaving it as it was.
   * The result is the log and the outcome.
   */
  function ReadRun(c: Client, state: OAuth2Model, replies: seq<Reply>, log: seq<Request>)
    : (seq<Request>, ReadOutcome<OAuth2Model>)
  {
    var fetched := log + [c.NewRequest(GET, ClientPath(ValueString(state.name)), None)];
    match GetClientOutcome(At(replies, |log|))
    case Failure(e) => (fetched, ReadError(e, "Error Reading OAuth2 Basic Client"))
    case Success(cl) =>
      if cl.isPublic then (fetched, ReadFailed(Error("Invalid Client Type")))
      else if !NeedsSecret(state) then (fetched, Refreshed(RefreshedState(state, cl)))
      else
        var secret := SecretOutcome(At(replies, |fetched|));
        (fetched + [c.NewRequest(GET, BasicSecretPath(cl.name), None)],
         Refreshed(RefreshedState(state, cl).(clientSecret := if secret.Success? then Known(secret.value) else state.clientSecret)))
  }

  method Read(c: Client, net: Network, state: OAuth2Model) returns (r: ReadOutcome<OAuth2Model>)
    modifies net
    ensures (net.log, r) == ReadRun(c, state, net.replies, old(net.log))
  {
    var fetched := GetClient(c, net, ValueString(state.name));
    if fetched.Failure? {
      if fetched.error == NotFound {
        return Removed;
      }
      return ReadFailed(Error("Error Reading OAuth2 Basic Client"));
    }
    if fetched.value.isPublic {
      return ReadFailed(Error("Invalid Client Type"));
    }
    var next := state;
    next := next.(name := Known(fetched.value.name));
    next := next.(displayName := Known(fetched.value.displayName));
    next := next.(origin := Known(fetched.value.origin));
    if fetched.value.redirectUris.Some? && |fetched.value.redirectUris.value| > 0 {
      next := next.(redirectUris := Known(fetched.value.redirectUris.value));
    } else {
      next := next.(redirectUris := Null);
    }
    if next.clientSecret.Null? || ValueString(next.clientSecret) == "" {
      var secret := GetBasicSecret(c, net, ValueString(next.name));
      if secret.Success? {
        next := next.(clientSecret := Known(secret.value));
      }
    }
    r := Refreshed(next);
  }

  /** The old and the new group maps of an Update. */
  function OldByGroup(state: OAuth2Model): map<string, seq<string>> {
    ScopeMapsByGroup(Entries(state.scopeMaps))
  }

  function NewByGroup(plan: OAuth2Model): map<string, seq<string>> {
    ScopeMapsByGroup(Entries(plan.scopeMaps))
  }

  /**
   * Update: the client update with the planned display name, origin and redirect URIs; the
   * scope-map reconciliation, given the orders its loops take; then the read-back, carrying
   * the stored secret over.
   */
  function UpdateRun(c: Client, plan: OAuth2Model, state: OAuth2Model, deleted: seq<string>, sent: seq<ScopeMap>,
                     replies: seq<Reply>, log: seq<Request>): Run<OAuth2Model>
  {
    var name := ValueString(plan.name);
    var updated := Checked(replies, log,
      UpdateClientRequest(c, name, ValueString(plan.displayName), ValueString(plan.origin), KnownList(plan.redirectUris)),
      "Error Updating OAuth2 Basic Client");
    if updated.outcome.Failure? then Run(updated.log, Failure(updated.outcome.error))
    else
      var reconciled := ReconcileRun(c, name, deleted, sent, replies, updated.log);
      if reconciled.outcome.Failure? then Run(reconciled.log, Failure(reconciled.outcome.error))
      else ReadBackRun(c, name, plan.(clientSecret := state.clientSecret), replies, reconciled.log)
  }

  /** The orders Update's loops took, whenever it got as far as them. */
  ghost predicate UpdateOrders(plan: OAuth2Model, state: OAuth2Model, deleted: seq<string>, sent: seq<ScopeMap>) {
    Enumerates(deleted, OldByGroup(state).Keys - NewByGroup(plan).Keys) && ListsMap(sent, NewByGroup(plan))
  }

  method Update(c: Client, net: Network, plan: OAuth2Model, state: OAuth2Model)
    returns (r: Result<OAuth2Model, Diag>, ghost deleted: seq<string>, ghost sent: seq<ScopeMap>)
    modifies net
    ensures Run(net.log, r) == UpdateRun(c, plan, state, deleted, sent, net.replies, old(net.log))
    ensures Outcome(At(net.replies, |old(net.log)|)).Success? ==> UpdateOrders(plan, state, deleted, sent)
  {
    deleted, sent := [], [];
    var redirectURIs: Option<seq<string>> := None;
    if !plan.redirectUris.Null? && !plan.redirectUris.Unknown? {
      redirectURIs := Some(plan.redirectUris.value);
    }
    var err := UpdateClient(c, net, ValueString(plan.name), ValueString(plan.displayName), ValueString(plan.origin), redirectURIs);
    if err.Some? {
      return Failure(Error("Error Updating OAuth2 Basic Client")), deleted, sent;
    }
    var oldByGroup := BuildScopeMaps(Entries(state.scopeMaps));
    var newByGroup := BuildScopeMaps(Entries(plan.scopeMaps));
    var reconciled;
    reconciled, deleted, sent := Reconcile(c, net, ValueString(plan.name), oldByGroup, newByGroup);
    if reconciled.Failure? {
      return Failure(reconciled.error), deleted, sent;
    }
    r := ReadBack(c, net, ValueString(plan.name), plan.(clientSecret := state.clientSecret));
  }

  /** Delete: a client that is already gone counts as deleted. */
  method Delete(c: Client, net: Network, state: OAuth2Model) returns (d: Option<Diag>)
    modifies net
    ensures net.log == old(net.log) + [c.NewRequest(DELETE, ClientPath(ValueString(state.name)), None)]
    ensures d == DeleteResult(Err(Outcome(At(net.replies, |old(net.log)|))), "Error Deleting OAuth2 Basic Client")
  {
    var err := DeleteClient(c, net, ValueString(state.name));
    if err.Some? && err.value != NotFound {
      return Some(Error("Error Deleting OAuth2 Basic Client"));
    }
    d := None;
  }

  /* ---------------------------------------------------------------- Properties */

  /**
   * The reconciliation deletes only groups of `deleted` and sets only entries of `sent`; when
   * it succeeds it has deleted every group of `deleted` and set every entry of `sent`.
   */
  lemma ReconcileRequests(c: Client, rs: string, deleted: seq<string>, sent: seq<ScopeMap>,
                          replies: seq<Reply>, log: seq<Request>)
    ensures var run := ReconcileRun(c, rs, deleted, sent, replies, log);
            && log <= run.log
            && (forall g :: DeleteScopeMapRequest(c, rs, g) in Since(run, log) ==> g in deleted)
            && (forall g, s :: SetScopeMapRequest(c, rs, g, s) in Since(run, log) ==> ScopeMap(g, s) in sent)
            && (run.outcome.Success? ==>
                  && (forall g :: DeleteScopeMapRequest(c, rs, g) in Since(run, log) <==> g in deleted)
                  && (forall g, s :: SetScopeMapRequest(c, rs, g, s) in Since(run, log) <==> ScopeMap(g, s) in sent))
  {
    var dropped := CallsRun(DeleteRequests(c, rs, deleted), "Error Deleting Scope Map", replies, log);
    CallsRunSent(DeleteRequests(c, rs, deleted), "Error Deleting Scope Map", replies, log);
    DeleteRequestsMembers(c, rs, deleted);
    SetRequestsMembers(c, rs, sent);
    if dropped.outcome.Success? {
      var run := CallsRun(SetRequests(c, rs, sent), "Error Setting Scope Map", replies, dropped.log);
      CallsRunSent(SetRequests(c, rs, sent), "Error Setting Scope Map", replies, dropped.log);
      SinceSplit(log, dropped.log, run.log);
    }
  }

  /** How Update's run is made of its parts, once the client update succeeded. */
  lemma UpdateRunParts(c: Client, plan: OAuth2Model, state: OAuth2Model, deleted: seq<string>, sent: seq<ScopeMap>,
                       replies: seq<Reply>, log: seq<Request>)
    requires Outcome(At(replies, |log|)).Success?
    ensures var name := ValueString(plan.name);
            var updateReq := UpdateClientRequest(c, name, ValueString(plan.displayName), ValueString(plan.origin), KnownList(plan.redirectUris));
            var updated := log + [updateReq];
            var reconciled := ReconcileRun(c, name, deleted, sent, replies, updated);
            var run := UpdateRun(c, plan, state, deleted, sent, replies, log);
            && log <= updated <= reconciled.log <= run.log
            && updated[|log|..] == [updateReq]
            && (reconciled.outcome.Failure? ==> run.log == reconciled.log)
            && (reconciled.outcome.Success? ==> run.log[|reconciled.log|..] == [c.NewRequest(GET, ClientPath(name), None)])
            && (run.outcome.Success? ==> reconciled.outcome.Success?)
  {
    var name := ValueString(plan.name);
    var updated := log + [UpdateClientRequest(c, name, ValueString(plan.displayName), ValueString(plan.origin), KnownList(plan.redirectUris))];
    ReconcileRequests(c, name, deleted, sent, replies, updated);
  }

  /**
   * Update deletes the scope map of a group only when the old state has the group and the plan
   * does not, so a group in both is never deleted; when it succeeds it has deleted exactly
   * those groups and set every planned group with its scopes.
   */
  lemma UpdateScopeMapRequests(c: Client, plan: OAuth2Model, state: OAuth2Model, deleted: seq<string>, sent: seq<ScopeMap>,
                               replies: seq<Reply>, log: seq<Request>)
    requires Outcome(At(replies, |log|)).Success? ==> UpdateOrders(plan, state, deleted, sent)
    ensures var run := UpdateRun(c, plan, state, deleted, sent, replies, log);
            var rs := ValueString(plan.name);
            && log <= run.log
            && (forall g :: DeleteScopeMapRequest(c, rs, g) in Since(run, log) ==>
                  g in OldByGroup(state) && g !in NewByGroup(plan))
            && (run.outcome.Success? ==>
                  && (forall g :: DeleteScopeMapRequest(c, rs, g) in Since(run, log) <==>
                        g in OldByGroup(state) && g !in NewByGroup(plan))
                  && (forall g, s :: SetScopeMapRequest(c, rs, g, s) in Since(run, log) <==>
                        g in NewByGroup(plan) && s == NewByGroup(plan)[g]))
  {
    var name := ValueString(plan.name);
    if Outcome(At(replies, |log|)).Success? {
      var updated := log + [UpdateClientRequest(c, name, ValueString(plan.displayName), ValueString(plan.origin), KnownList(plan.redirectUris))];
      var reconciled := ReconcileRun(c, name, deleted, sent, replies, updated);
      var run := UpdateRun(c, plan, state, deleted, sent, replies, log);
      UpdateRunParts(c, plan, state, deleted, sent, replies, log);
      ReconcileRequests(c, name, deleted, sent, replies, updated);
      SinceSplit(log, updated, reconciled.log);
      SinceSplit(log, reconciled.log, run.log);
      forall g, s
        ensures SetScopeMapRequest(c, name, g, s) in Since(run, log) <==> SetScopeMapRequest(c, name, g, s) in Since(reconciled, updated)
        ensures DeleteScopeMapRequest(c, name, g) in Since(run, log) <==> DeleteScopeMapRequest(c, name, g) in Since(reconciled, updated)
      {
        assert SetScopeMapRequest(c, name, g, s) !in run.log[|reconciled.log|..];
        assert DeleteScopeMapRequest(c, name, g) !in run.log[|reconciled.log|..];
      }
    }
  }

  /** When the plan names a group twice, a successful Update sets the scopes of its last entry. */
  lemma UpdateSetsLastEntry(c: Client, plan: OAuth2Model, state: OAuth2Model, deleted: seq<string>, sent: seq<ScopeMap>,
                            replies: seq<Reply>, log: seq<Request>, i: nat)
    requires Outcome(At(replies, |log|)).Success? ==> UpdateOrders(plan, state, deleted, sent)
    requires i < |Entries(plan.scopeMaps)|
    requires forall j :: i < j < |Entries(plan.scopeMaps)| ==> Entries(plan.scopeMaps)[j].group != Entries(plan.scopeMaps)[i].group
    ensures var run := UpdateRun(c, plan, state, deleted, sent, replies, log);
            var e := Entries(plan.scopeMaps)[i];
            && log <= run.log
            && (run.outcome.Success? ==>
                  && SetScopeMapRequest(c, ValueString(plan.name), e.group, e.scopes) in Since(run, log)
                  && forall s :: SetScopeMapRequest(c, ValueString(plan.name), e.group, s) in Since(run, log) ==> s == e.scopes)
  {
    UpdateScopeMapRequests(c, plan, state, deleted, sent, replies, log);
    LaterEntryWins(Entries(plan.scopeMaps), i);
  }

  /**
   * A successful Update keeps the planned scope maps and the stored secret, and never stores a
   * known empty redirect list.
   */
  lemma UpdateState(c: Client, plan: OAuth2Model, state: OAuth2Model, deleted: seq<string>, sent: seq<ScopeMap>,
                    replies: seq<Reply>, log: seq<Request>)
    ensures var run := UpdateRun(c, plan, state, deleted, sent, replies, log);
            run.outcome.Success? ==>
              && run.outcome.value.clientSecret == state.clientSecret
              && run.outcome.value.scopeMaps == plan.scopeMaps
              && run.outcome.value.name.Known? && run.outcome.value.origin.Known?
              && run.outcome.value.redirectUris != Known([]) && !run.outcome.value.redirectUris.Unknown?
  {
  }

  /**
   * The configuration steps set exactly the planned scope-map entries, only those when they
   * fail on the way, and delete none.
   */
  lemma ConfigureScopeMapRequests(c: Client, name: string, plan: OAuth2Model, secret: string,
                                  replies: seq<Reply>, log: seq<Request>)
    ensures var run := ConfigureRun(c, name, plan, secret, replies, log);
            && log <= run.log
            && (forall g :: DeleteScopeMapRequest(c, name, g) !in Since(run, log))
            && (forall g, s :: SetScopeMapRequest(c, name, g, s) in Since(run, log) ==> ScopeMap(g, s) in Entries(plan.scopeMaps))
            && (run.outcome.Success? ==>
                  forall g, s :: SetScopeMapRequest(c, name, g, s) in Since(run, log) <==> ScopeMap(g, s) in Entries(plan.scopeMaps))
  {
    var configured := log + [UpdateClientRequest(c, name, ValueString(plan.displayName), ValueString(plan.origin), KnownList(plan.redirectUris))];
    var run := ConfigureRun(c, name, plan, secret, replies, log);
    if Outcome(At(replies, |log|)).Success? {
      var reqs := SetRequests(c, name, Entries(plan.scopeMaps));
      var mapped := CallsRun(reqs, "Error Setting Scope Map", replies, configured);
      CallsRunSent(reqs, "Error Setting Scope Map", replies, configured);
      SetRequestsMembers(c, name, Entries(plan.scopeMaps));
      SinceSplit(log, configured, mapped.log);
      if mapped.outcome.Success? {
        SinceSplit(log, mapped.log, run.log);
        assert run.log[|mapped.log|..] == [c.NewRequest(GET, ClientPath(name), None)];
      }
    } else {
      assert Since(run, log) == [UpdateClientRequest(c, name, ValueString(plan.displayName), ValueString(plan.origin), KnownList(plan.redirectUris))];
    }
  }

  /**
   * Create sets exactly the planned scope-map entries when it succeeds, only planned entries
   * when it fails on the way, and deletes none.
   */
  lemma CreateScopeMapRequests(c: Client, plan: OAuth2Model, replies: seq<Reply>, log: seq<Request>)
    ensures var run := CreateRun(c, plan, replies, log);
            var rs := ValueString(plan.name);
            && log <= run.log
            && (forall g :: DeleteScopeMapRequest(c, rs, g) !in Since(run, log))
            && (forall g, s :: SetScopeMapRequest(c, rs, g, s) in Since(run, log) ==> ScopeMap(g, s) in Entries(plan.scopeMaps))
            && (run.outcome.Success? ==>
                  forall g, s :: SetScopeMapRequest(c, rs, g, s) in Since(run, log) <==> ScopeMap(g, s) in Entries(plan.scopeMaps))
  {
    var name := ValueString(plan.name);
    var createReq := CreateBasicRequest(c, name, ValueString(plan.displayName), ValueString(plan.origin));
    var secretReq := c.NewRequest(GET, BasicSecretPath(name), None);
    var created := log + [createReq];
    var fetched := created + [secretReq];
    var run := CreateRun(c, plan, replies, log);
    assert createReq.body.value.JObj?;
    forall g, s
      ensures SetScopeMapRequest(c, name, g, s) != createReq
    {
      assert SetScopeMapRequest(c, name, g, s).body.value.JArr?;
    }
    if Outcome(At(replies, |log|)).Success? && SecretOutcome(At(replies, |created|)).Success? {
      ConfigureScopeMapRequests(c, name, plan, SecretOutcome(At(replies, |created|)).value, replies, fetched);
      assert fetched[|log|..] == [createReq, secretReq];
      SinceSplit(log, fetched, run.log);
    }
  }

  /**
   * A successful Create stores the secret fetched right after the create, keeps the planned
   * scope maps, and never stores a known empty redirect list.
   */
  lemma CreateState(c: Client, plan: OAuth2Model, replies: seq<Reply>, log: seq<Request>)
    ensures var run := CreateRun(c, plan, replies, log);
            run.outcome.Success? ==>
              && SecretOutcome(At(replies, |log| + 1)).Success?
              && run.outcome.value.clientSecret == Known(SecretOutcome(At(replies, |log| + 1)).value)
              && run.outcome.value.scopeMaps == plan.scopeMaps
              && run.outcome.value.redirectUris != Known([]) && !run.outcome.value.redirectUris.Unknown?
  {
    var run := CreateRun(c, plan, replies, log);
    if run.outcome.Success? {
      var name := ValueString(plan.name);
      assert |log + [CreateBasicRequest(c, name, ValueString(plan.displayName), ValueString(plan.origin))]| == |log| + 1;
    }
  }

  /**
   * Read rejects a public client; for a confidential one it fetches the secret, by the name
   * read back, exactly when the stored secret is null or empty, and stores the fetched secret
   * only when the fetch succeeds.
   */
  lemma ReadSecret(c: Client, state: OAuth2Model, replies: seq<Reply>, log: seq<Request>)
    ensures var (sent, out) := ReadRun(c, state, replies, log);
            var got := GetClientOutcome(At(replies, |log|));
            var secret := SecretOutcome(At(replies, |log| + 1));
            && (got.Success? && got.value.isPublic ==>
                  out == ReadFailed(Error("Invalid Client Type")) && |sent| == |log| + 1)
            && (got.Success? && !got.value.isPublic ==>
                  && out.Refreshed?
                  && sent == log + [c.NewRequest(GET, ClientPath(ValueString(state.name)), None)]
                            + (if NeedsSecret(state) then [c.NewRequest(GET, BasicSecretPath(got.value.name), None)] else [])
                  && (NeedsSecret(state) && secret.Success? ==> out.state.clientSecret == Known(secret.value))
                  && (!NeedsSecret(state) || secret.Failure? ==> out.state.clientSecret == state.clientSecret))
  {
    assert |log + [c.NewRequest(GET, ClientPath(ValueString(state.name)), None)]| == |log| + 1;
  }
}
