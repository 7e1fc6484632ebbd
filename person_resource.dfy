/**
 * The `kanidm_person` resource (internal/provider/person_resource.go): a password and a
 * credential reset token are alternative ways to set up credentials, the password is write-only,
 * and mail fetched from the server is stored as a null list when there is none.
 *
 * Each handler is specified by a function computing its `Run` from the replies and the log so
 * far. Create and Update are long call sequences, so each is specified, and implemented, as a
 * start and a finish.
 */
module PersonResource {
  import opened Wrappers
  import opened Attrs
  import opened Transport
  import opened Tf
  import opened People

  /** `personResourceModel`. */
  datatype PersonModel = PersonModel(
    id: TfValue<string>,
    displayName: TfValue<string>,
    mail: TfValue<seq<string>>,
    password: TfValue<string>,
    generateResetToken: TfValue<bool>,
    resetToken: TfValue<string>,
    resetTokenTtl: TfValue<int>)

  /** The schema defaults: no reset token, and a token lifetime of one hour, in seconds. */
  const DefaultGenerateResetToken: bool := false
  const DefaultResetTokenTtl: int := 3600

  /** A password is set exactly when the plan has one that is neither null nor unknown. */
  predicate HasPassword(plan: PersonModel) {
    plan.password.Known?
  }

  predicate WantsResetToken(plan: PersonModel) {
    ValueBool(plan.generateResetToken)
  }

  /**
   * The credential steps: the password when `setPassword`, then a reset token when `mint`,
   * minted with the planned lifetime. The outcome is the reset token to store: the minted one,
   * or the planned one when none is minted.
   */
  function CredentialsRun(c: Client, id: string, plan: PersonModel, setPassword: bool, passwordSummary: string,
                          mint: bool, replies: seq<Reply>, log: seq<Request>): Run<TfValue<string>>
  {
    var pw := if setPassword then Checked(replies, log, SetPasswordRequest(c, id, ValueString(plan.password)), passwordSummary)
              else Run(log, Success(()));
    if pw.outcome.Failure? then Run(pw.log, Failure(pw.outcome.error))
    else if mint then
      Run(pw.log + [ResetTokenIntent(id, ValueInt64(plan.resetTokenTtl))],
          match ResetTokenOutcome(At(replies, |pw.log|))
          case Success(t) => Success(Known(t))
          case Failure(_) => Failure(Error("Error Generating Credential Reset Token")))
    else Run(pw.log, Success(plan.resetToken))
  }

  method SetUpCredentials(c: Client, net: Network, id: string, plan: PersonModel, setPassword: bool,
                          passwordSummary: string, mint: bool)
    returns (r: Result<TfValue<string>, Diag>)
    modifies net
    ensures Run(net.log, r) == CredentialsRun(c, id, plan, setPassword, passwordSummary, mint, net.replies, old(net.log))
  {
    if setPassword {
      var err := SetPersonPassword(c, net, id, ValueString(plan.password));
      if err.Some? {
        return Failure(Error(passwordSummary));
      }
    }
    r := Success(plan.resetToken);
    if mint {
      var token := CreatePersonCredentialResetToken(net, id, ValueInt64(plan.resetTokenTtl));
      if token.Failure? {
        return Failure(Error("Error Generating Credential Reset Token"));
      }
      r := Success(Known(token.value));
    }
  }

  /* ---------------------------------------------------------------- Create */

  /**
   * The start of Create: the exclusivity check, before any call; the client create; the
   * password step when the plan has a password and the token step when it asks for one.
   */
  function CreateStartRun(c: Client, plan: PersonModel, replies: seq<Reply>, log: seq<Request>): Run<TfValue<string>> {
    var id := ValueString(plan.id);
    if HasPassword(plan) && WantsResetToken(plan) then Run(log, Failure(Error("Conflicting Configuration")))
    else
      var create := log + [CreatePersonRequest(c, id, ValueString(plan.displayName))];
      if Outcome(At(replies, |log|)).Failure? then Run(create, Failure(Error("Error Creating Person")))
      else CredentialsRun(c, id, plan, HasPassword(plan), "Error Setting Password", WantsResetToken(plan), replies, create)
  }

  /** The state Create stores: the fetched ID and name, and the fetched mail only when there is some. */
  function CreatedState(plan: PersonModel, p: Person): PersonModel {
    plan.(id := Known(p.id), displayName := Known(p.displayName),
          mail := if p.mail.Some? && p.mail.value != [] then Known(p.mail.value) else plan.mail)
  }

  /**
   * The end of Create: the mail step, only for a known, non-empty list and with an empty display
   * name; then the read-back, which decides the state.
   */
  function CreateFinishRun(c: Client, id: string, plan: PersonModel, replies: seq<Reply>, log: seq<Request>): Run<PersonModel> {
    var mail := if plan.mail.Known? && plan.mail.value != [] then
                  Checked(replies, log, UpdatePersonRequest(c, id, "", Some(plan.mail.value)), "Error Updating Mail")
                else Run(log, Success(()));
    if mail.outcome.Failure? then Run(mail.log, Failure(mail.outcome.error))
    else
      var fetched := mail.log + [c.NewRequest(GET, PersonPath(id), None)];
      match GetPersonOutcome(At(replies, |mail.log|))
      case Failure(_) => Run(fetched, Failure(Error("Error Reading Person")))
      case Success(p) => Run(fetched, Success(CreatedState(plan, p)))
  }

  /** Create, from its start and its finish; the finish stores the reset token the start produced. */
  function CreateRun(c: Client, plan: PersonModel, replies: seq<Reply>, log: seq<Request>): Run<PersonModel> {
    var start := CreateStartRun(c, plan, replies, log);
    if start.outcome.Failure? then Run(start.log, Failure(start.outcome.error))
    else CreateFinishRun(c, ValueString(plan.id), plan.(resetToken := start.outcome.value), replies, start.log)
  }

  method CreateStart(c: Client, net: Network, plan: PersonModel) returns (r: Result<TfValue<string>, Diag>)
    modifies net
    ensures Run(net.log, r) == CreateStartRun(c, plan, net.replies, old(net.log))
  {
    var hasPassword := !plan.password.Null? && !plan.password.Unknown?;
    var generateToken := ValueBool(plan.generateResetToken);
    if hasPassword && generateToken {
      return Failure(Error("Conflicting Configuration"));
    }
    var person := CreatePerson(c, net, ValueString(plan.id), ValueString(plan.displayName));
    if person.Failure? {
      return Failure(Error("Error Creating Person"));
    }
    r := SetUpCredentials(c, net, person.value.id, plan, hasPassword, "Error Setting Password", generateToken);
  }

  method CreateFinish(c: Client, net: Network, id: string, plan: PersonModel) returns (r: Result<PersonModel, Diag>)
    modifies net
    ensures Run(net.log, r) == CreateFinishRun(c, id, plan, net.replies, old(net.log))
  {
    if !plan.mail.Null? && !plan.mail.Unknown? {
      var mailAddrs := plan.mail.value;
      if |mailAddrs| > 0 {
        var err := UpdatePerson(c, net, id, "", Some(mailAddrs));
        if err.Some? {
          return Failure(Error("Error Updating Mail"));
        }
      }
    }
    var created := GetPerson(c, net, id);
    if created.Failure? {
      return Failure(Error("Error Reading Person"));
    }
    var state := plan;
    state := state.(id := Known(created.value.id));
    state := state.(displayName := Known(created.value.displayName));
    if created.value.mail.Some? && |created.value.mail.value| > 0 {
      state := state.(mail := Known(created.value.mail.value));
    }
    r := Success(state);
  }

  /** Create: the start, then, with the reset token it produced, the finish. */
  method Create(c: Client, net: Network, plan: PersonModel) returns (r: Result<PersonModel, Diag>)
    modifies net
    ensures Run(net.log, r) == CreateRun(c, plan, net.replies, old(net.log))
  {
    var token := CreateStart(c, net, plan);
    if token.Failure? {
      return Failure(token.error);
    }
    r := CreateFinish(c, net, ValueString(plan.id), plan.(resetToken := token.value));
  }

  /** A plan with both a password and a reset token request fails before any call. */
  lemma CreateConflictSendsNothing(c: Client, plan: PersonModel, replies: seq<Reply>, log: seq<Request>)
    requires HasPassword(plan) && WantsResetToken(plan)
    ensures CreateRun(c, plan, replies, log) == Run(log, Failure(Error("Conflicting Configuration")))
  {
  }

  /* ---------------------------------------------------------------- Read, Update, Delete */

  /**
   * The state after a read-back in Read and Update: the fetched ID and name, and the fetched
   * mail, null when there is none; the password and the reset token are kept.
   */
  function RefreshedState(m: PersonModel, p: Person): (r: PersonModel)
    ensures r.id == Known(p.id) && r.displayName == Known(p.displayName)
    ensures r.mail.Null? <==> p.mail.None? || p.mail.value == []
    ensures !r.mail.Null? ==> r.mail == Known(p.mail.value) && p.mail.value != []
    ensures r.password == m.password && r.resetToken == m.resetToken
    ensures r.generateResetToken == m.generateResetToken && r.resetTokenTtl == m.resetTokenTtl
  {
    m.(id := Known(p.id), displayName := Known(p.displayName), mail := ListOrNull(p.mail))
  }

  /** Read: a person that is gone is removed from state; the write-only attributes are kept. */
  method Read(c: Client, net: Network, state: PersonModel) returns (r: ReadOutcome<PersonModel>)
    modifies net
    ensures net.log == old(net.log) + [c.NewRequest(GET, PersonPath(ValueString(state.id)), None)]
    ensures var got := GetPersonOutcome(At(net.replies, |old(net.log)|));
            && (got.Failure? ==> r == ReadError(got.error, "Error Reading Person"))
            && (got.Success? ==> r == Refreshed(RefreshedState(state, got.value)))
  {
    var person := GetPerson(c, net, ValueString(state.id));
    if person.Failure? {
      if person.error == NotFound {
        return Removed;
      }
      return ReadFailed(Error("Error Reading Person"));
    }
    var next := state;
    next := next.(id := Known(person.value.id));
    next := next.(displayName := Known(person.value.displayName));
    if person.value.mail.Some? && |person.value.mail.value| > 0 {
      next := next.(mail := Known(person.value.mail.value));
    } else {
      next := next.(mail := Null);
    }
    r := Refreshed(next);
  }

  /** Update re-sends the password only when the plan has one that differs from the stored one. */
  predicate PasswordChanged(plan: PersonModel, state: PersonModel) {
    plan.password != state.password && !plan.password.Null?
  }

  /** Update mints a new reset token only when the flag is set and was not set before. */
  predicate ResetTokenRequested(plan: PersonModel, state: PersonModel) {
    ValueBool(plan.generateResetToken) && plan.generateResetToken != state.generateResetToken
  }

  /**
   * The start of Update: the client update with the planned display name and the mail list,
   * nil when the plan list is null or unknown; then the credential steps, each guarded by a
   * change against the stored state.
   */
  function UpdateStartRun(c: Client, plan: PersonModel, state: PersonModel, replies: seq<Reply>, log: seq<Request>)
    : Run<TfValue<string>>
  {
    var id := ValueString(plan.id);
    var updated := log + [UpdatePersonRequest(c, id, ValueString(plan.displayName), KnownList(plan.mail))];
    if Outcome(At(replies, |log|)).Failure? then Run(updated, Failure(Error("Error Updating Person")))
    else CredentialsRun(c, id, plan, PasswordChanged(plan, state), "Error Updating Password",
                        ResetTokenRequested(plan, state), replies, updated)
  }

  /** Update: the start, then the read-back, which decides the state. */
  function UpdateRun(c: Client, plan: PersonModel, state: PersonModel, replies: seq<Reply>, log: seq<Request>)
    : Run<PersonModel>
  {
    var start := UpdateStartRun(c, plan, state, replies, log);
    if start.outcome.Failure? then Run(start.log, Failure(start.outcome.error))
    else
      var fetched := start.log + [c.NewRequest(GET, PersonPath(ValueString(plan.id)), None)];
      match GetPersonOutcome(At(replies, |start.log|))
      case Failure(_) => Run(fetched, Failure(Error("Error Reading Person")))
      case Success(p) => Run(fetched, Success(RefreshedState(plan.(resetToken := start.outcome.value), p)))
  }

  method UpdateStart(c: Client, net: Network, plan: PersonModel, state: PersonModel) returns (r: Result<TfValue<string>, Diag>)
    modifies net
    ensures Run(net.log, r) == UpdateStartRun(c, plan, state, net.replies, old(net.log))
  {
    var mailAddrs: Option<seq<string>> := None;
    if !plan.mail.Null? && !plan.mail.Unknown? {
      mailAddrs := Some(plan.mail.value);
    }
    var err := UpdatePerson(c, net, ValueString(plan.id), ValueString(plan.displayName), mailAddrs);
    if err.Some? {
      return Failure(Error("Error Updating Person"));
    }
    var setPassword := plan.password != state.password && !plan.password.Null?;
    var mint := ValueBool(plan.generateResetToken) && plan.generateResetToken != state.generateResetToken;
    r := SetUpCredentials(c, net, ValueString(plan.id), plan, setPassword, "Error Updating Password", mint);
  }

  method Update(c: Client, net: Network, plan: PersonModel, state: PersonModel) returns (r: Result<PersonModel, Diag>)
    modifies net
    ensures Run(net.log, r) == UpdateRun(c, plan, state, net.replies, old(net.log))
  {
    var token := UpdateStart(c, net, plan, state);
    if token.Failure? {
      return Failure(token.error);
    }
    var updated := GetPerson(c, net, ValueString(plan.id));
    if updated.Failure? {
      return Failure(Error("Error Reading Person"));
    }
    var next := plan;
    next := next.(resetToken := token.value);
    next := next.(id := Known(updated.value.id));
    next := next.(displayName := Known(updated.value.displayName));
    if updated.value.mail.Some? && |updated.value.mail.value| > 0 {
      next := next.(mail := Known(updated.value.mail.value));
    } else {
      next := next.(mail := Null);
    }
    r := Success(next);
  }

  /** Delete: a person that is already gone counts as deleted. */
  method Delete(c: Client, net: Network, state: PersonModel) returns (d: Option<Diag>)
    modifies net
    ensures net.log == old(net.log) + [c.NewRequest(DELETE, PersonPath(ValueString(state.id)), None)]
    ensures d == DeleteResult(Err(Outcome(At(net.replies, |old(net.log)|))), "Error Deleting Person")
  {
    var err := DeletePerson(c, net, ValueString(state.id));
    if err.Some? && err.value != NotFound {
      return Some(Error("Error Deleting Person"));
    }
    d := None;
  }

  /* ---------------------------------------------------------------- Properties */

  /**
   * The credential steps send a password request exactly when asked to, with the planned
   * password, and a reset token request exactly when asked to and the password step, if any,
   * succeeded, with the planned lifetime.
   */
  lemma CredentialsRequests(c: Client, id: string, plan: PersonModel, setPassword: bool, passwordSummary: string,
                            mint: bool, replies: seq<Reply>, log: seq<Request>)
    ensures var run := CredentialsRun(c, id, plan, setPassword, passwordSummary, mint, replies, log);
            && log <= run.log
            && (forall pw :: SetPasswordRequest(c, id, pw) in Since(run, log) <==>
                  setPassword && pw == ValueString(plan.password))
            && (forall i, t :: ResetTokenIntent(i, t) in Since(run, log) <==>
                  mint && (setPassword ==> Outcome(At(replies, |log|)).Success?) && i == id && t == ValueInt64(plan.resetTokenTtl))
            && (forall r :: r in Since(run, log) ==>
                  r == SetPasswordRequest(c, id, ValueString(plan.password)) || r == ResetTokenIntent(id, ValueInt64(plan.resetTokenTtl)))
  {
    var run := CredentialsRun(c, id, plan, setPassword, passwordSummary, mint, replies, log);
    var pwReq := SetPasswordRequest(c, id, ValueString(plan.password));
    var mintReq := ResetTokenIntent(id, ValueInt64(plan.resetTokenTtl));
    forall pw | SetPasswordRequest(c, id, pw) == pwReq
      ensures pw == ValueString(plan.password)
    {
      SetPasswordRequestInjective(c, id, pw, ValueString(plan.password));
    }
    var sent := if !setPassword then (if mint then [mintReq] else [])
                else if Outcome(At(replies, |log|)).Failure? then [pwReq]
                else if mint then [pwReq, mintReq] else [pwReq];
    assert run.log == log + sent;
    assert Since(run, log) == sent;
  }

  /**
   * The end of Create sends the read-back and, for a known, non-empty plan list only, a mail
   * update with an empty display name, so the name is left as it is.
   */
  lemma CreateFinishRequests(c: Client, id: string, plan: PersonModel, replies: seq<Reply>, log: seq<Request>)
    ensures var run := CreateFinishRun(c, id, plan, replies, log);
            var mailStep := plan.mail.Known? && plan.mail.value != [];
            && log <= run.log
            && (forall r :: r in Since(run, log) ==>
                  r == c.NewRequest(GET, PersonPath(id), None) || (mailStep && r == UpdatePersonRequest(c, id, "", Some(plan.mail.value))))
            && (forall r :: r in Since(run, log) ==> r.Http?)
            && (forall d, m :: UpdatePersonRequest(c, id, d, m) in Since(run, log) <==>
                  mailStep && d == "" && m == Some(plan.mail.value))
  {
    var run := CreateFinishRun(c, id, plan, replies, log);
    var fetch := c.NewRequest(GET, PersonPath(id), None);
    if plan.mail.Known? && plan.mail.value != [] {
      var update := UpdatePersonRequest(c, id, "", Some(plan.mail.value));
      forall d, m | UpdatePersonRequest(c, id, d, m) == update
        ensures d == "" && m == Some(plan.mail.value)
      {
        UpdatePersonRequestInjective(c, id, d, m, "", Some(plan.mail.value));
      }
      var sent := if Outcome(At(replies, |log|)).Failure? then [update] else [update, fetch];
      assert run.log == log + sent;
      assert Since(run, log) == sent;
    } else {
      assert run.log == log + [fetch];
      assert Since(run, log) == [fetch];
    }
  }

  /** How Create's run is made of its parts, once the account is created. */
  lemma CreateRunParts(c: Client, plan: PersonModel, replies: seq<Reply>, log: seq<Request>)
    requires !(HasPassword(plan) && WantsResetToken(plan))
    requires Outcome(At(replies, |log|)).Success?
    ensures var id := ValueString(plan.id);
            var created := log + [CreatePersonRequest(c, id, ValueString(plan.displayName))];
            var start := CreateStartRun(c, plan, replies, log);
            var run := CreateRun(c, plan, replies, log);
            && start == CredentialsRun(c, id, plan, HasPassword(plan), "Error Setting Password", WantsResetToken(plan), replies, created)
            && log <= created <= start.log <= run.log
            && created[|log|..] == [CreatePersonRequest(c, id, ValueString(plan.displayName))]
            && (start.outcome.Failure? ==> run.log == start.log)
            && (start.outcome.Success? ==>
                  run == CreateFinishRun(c, id, plan.(resetToken := start.outcome.value), replies, start.log))
  {
    var id := ValueString(plan.id);
    var created := log + [CreatePersonRequest(c, id, ValueString(plan.displayName))];
    CredentialsRequests(c, id, plan, HasPassword(plan), "Error Setting Password", WantsResetToken(plan), replies, created);
    var start := CreateStartRun(c, plan, replies, log);
    if start.outcome.Success? {
      CreateFinishRequests(c, id, plan.(resetToken := start.outcome.value), replies, start.log);
    }
  }

  /** Once the account is created, Create sets the password exactly when the plan has one. */
  lemma CreatePasswordRequests(c: Client, plan: PersonModel, replies: seq<Reply>, log: seq<Request>)
    requires !(HasPassword(plan) && WantsResetToken(plan))
    requires Outcome(At(replies, |log|)).Success?
    ensures var run := CreateRun(c, plan, replies, log);
            && log <= run.log
            && forall pw :: SetPasswordRequest(c, ValueString(plan.id), pw) in Since(run, log) <==>
                 HasPassword(plan) && pw == plan.password.value
  {
    var id := ValueString(plan.id);
    var createReq := CreatePersonRequest(c, id, ValueString(plan.displayName));
    var created := log + [createReq];
    CreateRunParts(c, plan, replies, log);
    CredentialsRequests(c, id, plan, HasPassword(plan), "Error Setting Password", WantsResetToken(plan), replies, created);
    var start := CreateStartRun(c, plan, replies, log);
    var run := CreateRun(c, plan, replies, log);
    forall pw
      ensures SetPasswordRequest(c, id, pw) != createReq
    {
      SetPasswordRequestDistinct(c, id, pw, id, ValueString(plan.displayName), None);
    }
    SinceSplit(log, created, start.log);
    if start.outcome.Success? {
      var finish := CreateFinishRun(c, id, plan.(resetToken := start.outcome.value), replies, start.log);
      CreateFinishRequests(c, id, plan.(resetToken := start.outcome.value), replies, start.log);
      forall pw
        ensures SetPasswordRequest(c, id, pw) !in Since(finish, start.log)
      {
        SetPasswordRequestDistinct(c, id, pw, id, "", KnownList(plan.mail));
      }
      SinceSplit(log, start.log, finish.log);
    }
  }

  /**
   * Once the account is created, what Create sends is the create, what the start sent after
   * it, and, when the start succeeded, what the finish sent.
   */
  lemma CreateRunSince(c: Client, plan: PersonModel, replies: seq<Reply>, log: seq<Request>)
    requires !(HasPassword(plan) && WantsResetToken(plan))
    requires Outcome(At(replies, |log|)).Success?
    ensures var id := ValueString(plan.id);
            var createReq := CreatePersonRequest(c, id, ValueString(plan.displayName));
            var created := log + [createReq];
            var start := CreateStartRun(c, plan, replies, log);
            var run := CreateRun(c, plan, replies, log);
            && log <= created <= start.log <= run.log
            && (start.outcome.Failure? ==> forall r :: r in Since(run, log) <==> r == createReq || r in Since(start, created))
            && (start.outcome.Success? ==>
                  var finish := CreateFinishRun(c, id, plan.(resetToken := start.outcome.value), replies, start.log);
                  && run == finish
                  && forall r :: r in Since(run, log) <==> r == createReq || r in Since(start, created) || r in Since(finish, start.log))
  {
    var id := ValueString(plan.id);
    var createReq := CreatePersonRequest(c, id, ValueString(plan.displayName));
    var created := log + [createReq];
    CreateRunParts(c, plan, replies, log);
    var start := CreateStartRun(c, plan, replies, log);
    var run := CreateRun(c, plan, replies, log);
    SinceSplit(log, created, start.log);
    SinceSplit(log, start.log, run.log);
  }

  /** Once the account is created, Create mints a reset token exactly when the plan asks for one, with the planned lifetime. */
  lemma CreateMintRequests(c: Client, plan: PersonModel, replies: seq<Reply>, log: seq<Request>)
    requires !(HasPassword(plan) && WantsResetToken(plan))
    requires Outcome(At(replies, |log|)).Success?
    ensures var run := CreateRun(c, plan, replies, log);
            && log <= run.log
            && forall i, t :: ResetTokenIntent(i, t) in Since(run, log) <==>
                 WantsResetToken(plan) && i == ValueString(plan.id) && t == ValueInt64(plan.resetTokenTtl)
  {
    var id := ValueString(plan.id);
    var created := log + [CreatePersonRequest(c, id, ValueString(plan.displayName))];
    CreateRunSince(c, plan, replies, log);
    CredentialsRequests(c, id, plan, HasPassword(plan), "Error Setting Password", WantsResetToken(plan), replies, created);
    var start := CreateStartRun(c, plan, replies, log);
    var run := CreateRun(c, plan, replies, log);
    if start.outcome.Success? {
      var finish := CreateFinishRun(c, id, plan.(resetToken := start.outcome.value), replies, start.log);
      CreateFinishRequests(c, id, plan.(resetToken := start.outcome.value), replies, start.log);
      forall i, t
        ensures ResetTokenIntent(i, t) in Since(run, log) <==> ResetTokenIntent(i, t) in Since(start, created)
      {
        assert ResetTokenIntent(i, t) !in Since(finish, start.log);
      }
    }
  }

  /**
   * Create updates the mail exactly when the earlier steps succeeded and the plan has a known,
   * non-empty list, and then with an empty display name and that list.
   */
  lemma CreateMailRequests(c: Client, plan: PersonModel, replies: seq<Reply>, log: seq<Request>)
    requires !(HasPassword(plan) && WantsResetToken(plan))
    requires Outcome(At(replies, |log|)).Success?
    ensures var run := CreateRun(c, plan, replies, log);
            && log <= run.log
            && forall d, m :: UpdatePersonRequest(c, ValueString(plan.id), d, m) in Since(run, log) <==>
                 && CreateStartRun(c, plan, replies, log).outcome.Success?
                 && plan.mail.Known? && plan.mail.value != [] && d == "" && m == Some(plan.mail.value)
  {
    var id := ValueString(plan.id);
    var created := log + [CreatePersonRequest(c, id, ValueString(plan.displayName))];
    CreateRunParts(c, plan, replies, log);
    CredentialsRequests(c, id, plan, HasPassword(plan), "Error Setting Password", WantsResetToken(plan), replies, created);
    var start := CreateStartRun(c, plan, replies, log);
    var run := CreateRun(c, plan, replies, log);
    SinceSplit(log, created, start.log);
    forall d, m
      ensures UpdatePersonRequest(c, id, d, m) !in Since(start, created)
    {
      SetPasswordRequestDistinct(c, id, ValueString(plan.password), id, d, m);
    }
    if start.outcome.Success? {
      var finish := CreateFinishRun(c, id, plan.(resetToken := start.outcome.value), replies, start.log);
      CreateFinishRequests(c, id, plan.(resetToken := start.outcome.value), replies, start.log);
      SinceSplit(log, start.log, finish.log);
    }
  }

  /** How Update's run is made of its parts, once the client update succeeded. */
  lemma UpdateRunParts(c: Client, plan: PersonModel, state: PersonModel, replies: seq<Reply>, log: seq<Request>)
    requires Outcome(At(replies, |log|)).Success?
    ensures var id := ValueString(plan.id);
            var updated := log + [UpdatePersonRequest(c, id, ValueString(plan.displayName), KnownList(plan.mail))];
            var start := UpdateStartRun(c, plan, state, replies, log);
            var run := UpdateRun(c, plan, state, replies, log);
            && start == CredentialsRun(c, id, plan, PasswordChanged(plan, state), "Error Updating Password",
                                       ResetTokenRequested(plan, state), replies, updated)
            && log <= updated <= start.log <= run.log
            && updated[|log|..] == [UpdatePersonRequest(c, id, ValueString(plan.displayName), KnownList(plan.mail))]
            && (start.outcome.Failure? ==> run.log == start.log)
            && (start.outcome.Success? ==> run.log == start.log + [c.NewRequest(GET, PersonPath(id), None)])
  {
    var id := ValueString(plan.id);
    var updated := log + [UpdatePersonRequest(c, id, ValueString(plan.displayName), KnownList(plan.mail))];
    CredentialsRequests(c, id, plan, PasswordChanged(plan, state), "Error Updating Password",
                        ResetTokenRequested(plan, state), replies, updated);
  }

  /**
   * Once the client update succeeded, Update sets the password exactly when the plan has one
   * that differs from the stored one, and then the planned one.
   */
  lemma UpdatePasswordRequests(c: Client, plan: PersonModel, state: PersonModel, replies: seq<Reply>, log: seq<Request>)
    requires Outcome(At(replies, |log|)).Success?
    ensures var run := UpdateRun(c, plan, state, replies, log);
            && log <= run.log
            && forall pw :: SetPasswordRequest(c, ValueString(plan.id), pw) in Since(run, log) <==>
                 PasswordChanged(plan, state) && pw == ValueString(plan.password)
  {
    var id := ValueString(plan.id);
    var updateReq := UpdatePersonRequest(c, id, ValueString(plan.displayName), KnownList(plan.mail));
    var updated := log + [updateReq];
    UpdateRunParts(c, plan, state, replies, log);
    CredentialsRequests(c, id, plan, PasswordChanged(plan, state), "Error Updating Password",
                        ResetTokenRequested(plan, state), replies, updated);
    var start := UpdateStartRun(c, plan, state, replies, log);
    var run := UpdateRun(c, plan, state, replies, log);
    SinceSplit(log, updated, start.log);
    forall pw
      ensures SetPasswordRequest(c, id, pw) != updateReq
      ensures SetPasswordRequest(c, id, pw) != c.NewRequest(GET, PersonPath(id), None)
    {
      SetPasswordRequestDistinct(c, id, pw, id, ValueString(plan.displayName), KnownList(plan.mail));
    }
    if start.outcome.Success? {
      assert run.log[|start.log|..] == [c.NewRequest(GET, PersonPath(id), None)];
      SinceSplit(log, start.log, run.log);
    }
  }

  /**
   * Once the client update succeeded, Update mints a reset token exactly when the flag was
   * newly set and the password step, if any, succeeded, and then with the planned lifetime.
   */
  lemma UpdateMintRequests(c: Client, plan: PersonModel, state: PersonModel, replies: seq<Reply>, log: seq<Request>)
    requires Outcome(At(replies, |log|)).Success?
    ensures var run := UpdateRun(c, plan, state, replies, log);
            && log <= run.log
            && forall i, t :: ResetTokenIntent(i, t) in Since(run, log) <==>
                 && ResetTokenRequested(plan, state)
                 && (PasswordChanged(plan, state) ==> Outcome(At(replies, |log| + 1)).Success?)
                 && i == ValueString(plan.id) && t == ValueInt64(plan.resetTokenTtl)
  {
    var id := ValueString(plan.id);
    var updated := log + [UpdatePersonRequest(c, id, ValueString(plan.displayName), KnownList(plan.mail))];
    UpdateRunParts(c, plan, state, replies, log);
    CredentialsRequests(c, id, plan, PasswordChanged(plan, state), "Error Updating Password",
                        ResetTokenRequested(plan, state), replies, updated);
    var start := UpdateStartRun(c, plan, state, replies, log);
    var run := UpdateRun(c, plan, state, replies, log);
    SinceSplit(log, updated, start.log);
    if start.outcome.Success? {
      assert run.log[|start.log|..] == [c.NewRequest(GET, PersonPath(id), None)];
      SinceSplit(log, start.log, run.log);
    }
  }

  /** On success the credential steps have sent one request per step asked for. */
  lemma CredentialsRunLength(c: Client, id: string, plan: PersonModel, setPassword: bool, passwordSummary: string,
                             mint: bool, replies: seq<Reply>, log: seq<Request>)
    ensures var run := CredentialsRun(c, id, plan, setPassword, passwordSummary, mint, replies, log);
            run.outcome.Success? ==> |run.log| == |log| + (if setPassword then 1 else 0) + (if mint then 1 else 0)
  {
  }

  /**
   * A successful Update stores the person read back after the credential steps (its ID, name
   * and mail, null when it has none), the minted token when one was requested and otherwise
   * the planned one, and the planned write-only attributes.
   */
  lemma UpdateState(c: Client, plan: PersonModel, state: PersonModel, replies: seq<Reply>, log: seq<Request>)
    ensures var run := UpdateRun(c, plan, state, replies, log);
            var k := |log| + if PasswordChanged(plan, state) then 2 else 1;
            var got := GetPersonOutcome(At(replies, k + if ResetTokenRequested(plan, state) then 1 else 0));
            run.outcome.Success? ==>
              && got.Success?
              && run.outcome.value.id == Known(got.value.id)
              && run.outcome.value.displayName == Known(got.value.displayName)
              && run.outcome.value.mail == ListOrNull(got.value.mail)
              && run.outcome.value.password == plan.password
              && run.outcome.value.generateResetToken == plan.generateResetToken
              && run.outcome.value.resetTokenTtl == plan.resetTokenTtl
              && (ResetTokenRequested(plan, state) ==>
                    && ResetTokenOutcome(At(replies, k)).Success?
                    && run.outcome.value.resetToken == Known(ResetTokenOutcome(At(replies, k)).value))
              && (!ResetTokenRequested(plan, state) ==> run.outcome.value.resetToken == plan.resetToken)
  {
    var run := UpdateRun(c, plan, state, replies, log);
    if run.outcome.Success? {
      var id := ValueString(plan.id);
      var updated := log + [UpdatePersonRequest(c, id, ValueString(plan.displayName), KnownList(plan.mail))];
      assert |updated| == |log| + 1;
      CredentialsRunLength(c, id, plan, PasswordChanged(plan, state), "Error Updating Password",
                           ResetTokenRequested(plan, state), replies, updated);
    }
  }

  /**
   * A successful Create stores the person read back at the end: its ID and name, and its mail
   * when it has some, the planned value otherwise. It stores the token minted from the reply
   * after the create's when the plan asks for one, otherwise the planned token, and the planned
   * write-only attributes.
   */
  lemma CreateState(c: Client, plan: PersonModel, replies: seq<Reply>, log: seq<Request>)
    ensures var run := CreateRun(c, plan, replies, log);
            var k := |log| + 1 + (if HasPassword(plan) then 1 else 0) + (if WantsResetToken(plan) then 1 else 0)
                     + (if plan.mail.Known? && plan.mail.value != [] then 1 else 0);
            var got := GetPersonOutcome(At(replies, k));
            run.outcome.Success? ==>
              && got.Success?
              && run.outcome.value.id == Known(got.value.id)
              && run.outcome.value.displayName == Known(got.value.displayName)
              && (got.value.mail.Some? && got.value.mail.value != [] ==> run.outcome.value.mail == Known(got.value.mail.value))
              && (!(got.value.mail.Some? && got.value.mail.value != []) ==> run.outcome.value.mail == plan.mail)
              && run.outcome.value.password == plan.password
              && run.outcome.value.generateResetToken == plan.generateResetToken
              && run.outcome.value.resetTokenTtl == plan.resetTokenTtl
              && (WantsResetToken(plan) ==>
                    && ResetTokenOutcome(At(replies, |log| + 1)).Success?
                    && run.outcome.value.resetToken == Known(ResetTokenOutcome(At(replies, |log| + 1)).value))
              && (!WantsResetToken(plan) ==> run.outcome.value.resetToken == plan.resetToken)
  {
    var run := CreateRun(c, plan, replies, log);
    if run.outcome.Success? {
      var id := ValueString(plan.id);
      var created := log + [CreatePersonRequest(c, id, ValueString(plan.displayName))];
      assert |created| == |log| + 1;
      CredentialsRunLength(c, id, plan, HasPassword(plan), "Error Setting Password", WantsResetToken(plan), replies, created);
    }
  }

  /**
   * The schema defaults at work: with the lifetime left unset, Create mints, once the person is
   * created and only when asked to, a reset token for one hour.
   */
  lemma DefaultTtlMint(c: Client, plan: PersonModel, configuredTtl: TfValue<int>, replies: seq<Reply>, log: seq<Request>)
    requires configuredTtl.Null? && plan.resetTokenTtl == WithDefault(configuredTtl, DefaultResetTokenTtl)
    requires !(HasPassword(plan) && WantsResetToken(plan))
    requires Outcome(At(replies, |log|)).Success?
    ensures var run := CreateRun(c, plan, replies, log);
            && log <= run.log
            && forall i, t :: ResetTokenIntent(i, t) in Since(run, log) <==>
                 WantsResetToken(plan) && i == ValueString(plan.id) && t == 3600
  {
    CreateMintRequests(c, plan, replies, log);
  }

  /** With the reset-token flag left unset, Create never mints a reset token, whatever the replies. */
  lemma DefaultFlagNoMint(c: Client, plan: PersonModel, configuredFlag: TfValue<bool>, replies: seq<Reply>, log: seq<Request>)
    requires configuredFlag.Null? && plan.generateResetToken == WithDefault(configuredFlag, DefaultGenerateResetToken)
    ensures var run := CreateRun(c, plan, replies, log);
            && log <= run.log
            && forall i, t :: ResetTokenIntent(i, t) !in Since(run, log)
  {
    assert !WantsResetToken(plan);
    if Outcome(At(replies, |log|)).Success? {
      CreateMintRequests(c, plan, replies, log);
    } else {
      var run := CreateRun(c, plan, replies, log);
      assert Since(run, log) == [CreatePersonRequest(c, ValueString(plan.id), ValueString(plan.displayName))];
    }
  }
}
