/**
 * Properties of registerInternal's flow as the hub's replies drive it:
 * which requests it sends and in what order, when it asks for a second
 * registration id, and what it leaves in the store.
 */
module RegisterFlow {
  import opened Wrappers
  import opened Strings
  import opened Errors
  import opened Connection
  import opened Registrations
  import opened Hub

  /** createRegistrationId sends one POST when the request can be built, and nothing otherwise. */
  lemma CreateStepShape(e: Env, sent: seq<Request>)
    ensures var (id, t) := CreateStep(e, sent);
      && (CanSend(e.connection, e.platform) ==> FollowsPlan(t, sent, CreateVerbs) && |t| == |sent| + 1)
      && (!CanSend(e.connection, e.platform) ==> t == sent && id.Failure?)
  {
    AfterPlan(sent, CreateRequest(e.connection, e.platform, e.hubPath, e.clock(|sent|)), CreateVerbs[0]);
  }

  /**
   * upsertRegistrationInternal sends one PUT when the request can be
   * built; the store changes only when the reply was read back, and
   * RegistrationGone is the 410 answer to that PUT.
   */
  lemma UpsertStepShape(e: Env, m: map<string, string>, sent: seq<Request>, d: RegData)
    ensures var a := UpsertStep(e, m, sent, d);
      && (CanSend(e.connection, e.platform) ==>
            && FollowsPlan(a.sent, sent, UpsertVerbs) && |a.sent| == |sent| + 1
            && (a.result == Failure(RegistrationGone) <==> e.respond(|sent|, a.sent[|sent|]).status == 410))
      && (!CanSend(e.connection, e.platform) ==> a.sent == sent && a.result.Failure? && a.result != Failure(RegistrationGone))
      && (a.result.Failure? ==> a.store == m)
      && (a.result.Success? ==>
            a.store == StoreId(m, a.result.value.custom.name, a.result.value.registrationId, d.custom.pnsHandle))
  {
    AfterPlan(sent, PutRequest(e.connection, e.platform, e.hooks, d, e.clock(|sent|)), UpsertVerbs[0]);
  }

  /** A request that goes out with the given verb extends the trace by one step of that plan. */
  lemma AfterPlan(sent: seq<Request>, req: Result<Request, Error>, verb: string)
    requires req.Success? ==> req.value.verb == verb
    ensures FollowsPlan(After(sent, req), sent, if req.Success? then [verb] else [])
    ensures req.Success? ==> |After(sent, req)| == |sent| + 1
  {
  }

  /** The one request createRegistrationId sends, and the one upsertRegistrationInternal sends. */
  const CreateVerbs: seq<string> := ["POST"]
  const UpsertVerbs: seq<string> := ["PUT"]

  /** The requests registerInternal's upsert phase can send, in order: a POST when no usable id is cached, then PUT, POST, PUT. */
  function RetryPlan(cachedBlank: bool): (v: seq<string>)
    ensures |v| == if cachedBlank then 4 else 3
  {
    (if cachedBlank then CreateVerbs else []) + UpsertVerbs + (CreateVerbs + UpsertVerbs)
  }

  /** t is base followed by requests whose verbs are a prefix of plan. */
  ghost predicate FollowsPlan(t: seq<Request>, base: seq<Request>, plan: seq<string>) {
    && |base| <= |t| <= |base| + |plan| && t[..|base|] == base
    && forall i :: |base| <= i < |t| ==> t[i].verb == plan[i - |base|]
  }

  /** The id registerInternal starts from costs one POST exactly when no usable id is cached. */
  lemma FirstIdShape(e: Env, m: map<string, string>, sent: seq<Request>, name: Option<string>)
    ensures var (id, t) := FirstId(e, m, sent, name);
      var cached := Lookup(m, NameKey(name));
      && (!IsBlank(cached) ==> id == Success(cached.value) && t == sent)
      && (IsBlank(cached) && CanSend(e.connection, e.platform) ==> FollowsPlan(t, sent, CreateVerbs) && |t| == |sent| + 1)
      && (IsBlank(cached) && !CanSend(e.connection, e.platform) ==> t == sent && id.Failure?)
  {
    if IsBlank(Lookup(m, NameKey(name))) {
      CreateStepShape(e, sent);
    }
  }

  /** The retry sends a POST and, when it gave an id, one PUT. */
  lemma RenewShape(e: Env, m: map<string, string>, t: seq<Request>, d: RegData)
    requires CanSend(e.connection, e.platform)
    ensures var a := Renew(e, m, t, d); FollowsPlan(a.sent, t, CreateVerbs + UpsertVerbs) && |a.sent| > |t|
  {
    var created := CreateStep(e, t);
    CreateStepShape(e, t);
    if created.0.Success? {
      RenewUpsertShape(e, m, t, d, created.0.value, created.1);
    } else {
      FollowsPlanLonger(created.1, t, CreateVerbs, UpsertVerbs);
    }
  }

  /** The PUT of the retry, after the POST that gave its id. */
  lemma RenewUpsertShape(e: Env, m: map<string, string>, t: seq<Request>, d: RegData, id: string, t1: seq<Request>)
    requires CanSend(e.connection, e.platform) && FollowsPlan(t1, t, CreateVerbs) && |t1| == |t| + 1
    ensures var a := UpsertStep(e, m, t1, d.(registrationId := Some(id))); FollowsPlan(a.sent, t, CreateVerbs + UpsertVerbs) && |a.sent| > |t|
  {
    var a := UpsertStep(e, m, t1, d.(registrationId := Some(id)));
    UpsertStepShape(e, m, t1, d.(registrationId := Some(id)));
    FollowsPlanThen(t1, a.sent, t, CreateVerbs, UpsertVerbs);
  }

  /** Without a connection string nothing is sent and registration fails. */
  lemma RetryOffline(e: Env, m: map<string, string>, sent: seq<Request>, d: RegData)
    requires !CanSend(e.connection, e.platform)
    ensures var a := Retry(e, m, sent, d); a.sent == sent && a.result.Failure?
  {
    var first := FirstId(e, m, sent, d.custom.name);
    FirstIdShape(e, m, sent, d.custom.name);
    if first.0.Success? {
      UpsertStepShape(e, m, first.1, d.(registrationId := Some(first.0.value)));
    }
  }

  /** Following p then q from where p ended is following p + q. */
  lemma FollowsPlanThen(t1: seq<Request>, t2: seq<Request>, base: seq<Request>, p: seq<string>, q: seq<string>)
    requires FollowsPlan(t1, base, p) && |t1| == |base| + |p| && FollowsPlan(t2, t1, q)
    ensures FollowsPlan(t2, base, p + q)
  {
    assert t2[..|base|] == t1[..|base|];
  }

  /** A trace that follows a plan follows every longer one. */
  lemma FollowsPlanLonger(t: seq<Request>, base: seq<Request>, p: seq<string>, q: seq<string>)
    requires FollowsPlan(t, base, p)
    ensures FollowsPlan(t, base, p + q)
  {
  }

  /**
   * Retry sends at least one request and a prefix of the plan, so at most
   * one POST for a missing id and at most two PUTs, each PUT after the
   * POST that gave its id.
   */
  lemma RetryTrace(e: Env, m: map<string, string>, sent: seq<Request>, d: RegData)
    requires CanSend(e.connection, e.platform)
    ensures var a := Retry(e, m, sent, d);
      FollowsPlan(a.sent, sent, RetryPlan(IsBlank(Lookup(m, NameKey(d.custom.name))))) && |a.sent| > |sent|
  {
    var blank := IsBlank(Lookup(m, NameKey(d.custom.name)));
    var p0: seq<string> := if blank then CreateVerbs else [];
    var rest := UpsertVerbs + (CreateVerbs + UpsertVerbs);
    assert RetryPlan(blank) == p0 + rest;
    var first := FirstId(e, m, sent, d.custom.name);
    var t0 := first.1;
    FirstIdShape(e, m, sent, d.custom.name);
    assert FollowsPlan(t0, sent, p0);
    if first.0.Failure? {
      FollowsPlanLonger(t0, sent, p0, rest);
    } else {
      var d1 := d.(registrationId := Some(first.0.value));
      UpsertOrRenewTrace(e, m, t0, d1);
      FollowsPlanThen(t0, UpsertOrRenew(e, m, t0, d1).sent, sent, p0, rest);
    }
  }

  /** The upsert-and-retry sends a PUT, then possibly the retry's POST and PUT. */
  lemma UpsertOrRenewTrace(e: Env, m: map<string, string>, t: seq<Request>, d: RegData)
    requires CanSend(e.connection, e.platform)
    ensures var a := UpsertOrRenew(e, m, t, d);
      FollowsPlan(a.sent, t, UpsertVerbs + (CreateVerbs + UpsertVerbs)) && |a.sent| > |t|
  {
    var a1 := UpsertStep(e, m, t, d);
    UpsertStepShape(e, m, t, d);
    var t1 := a1.sent;
    if a1.result != Failure(RegistrationGone) {
      FollowsPlanLonger(t1, t, UpsertVerbs, CreateVerbs + UpsertVerbs);
    } else {
      RenewShape(e, m, t1, d);
      FollowsPlanThen(t1, Renew(e, m, t1, d).sent, t, UpsertVerbs, CreateVerbs + UpsertVerbs);
    }
  }

  /**
   * A second registration id is asked for exactly when the hub answered
   * the first PUT with 410 Gone: the POST after that PUT is sent if and
   * only if the PUT's status was 410.
   */
  lemma RetryOnlyOnGone(e: Env, m: map<string, string>, sent: seq<Request>, d: RegData)
    requires CanSend(e.connection, e.platform)
    ensures var a := Retry(e, m, sent, d);
      var put := |sent| + if IsBlank(Lookup(m, NameKey(d.custom.name))) then 1 else 0;
      |a.sent| > put + 1 <==> |a.sent| > put && e.respond(put, a.sent[put]).status == 410
  {
    var first := FirstId(e, m, sent, d.custom.name);
    FirstIdShape(e, m, sent, d.custom.name);
    if first.0.Success? {
      UpsertOrRenewGone(e, m, first.1, d.(registrationId := Some(first.0.value)));
    }
  }

  /** After the PUT at position |t|, a further request goes out exactly when that PUT was answered 410. */
  lemma UpsertOrRenewGone(e: Env, m: map<string, string>, t: seq<Request>, d: RegData)
    requires CanSend(e.connection, e.platform)
    ensures var a := UpsertOrRenew(e, m, t, d);
      |a.sent| > |t| + 1 <==> |a.sent| > |t| && e.respond(|t|, a.sent[|t|]).status == 410
  {
    var a1 := UpsertStep(e, m, t, d);
    UpsertStepShape(e, m, t, d);
    if a1.result == Failure(RegistrationGone) {
      RenewShape(e, m, a1.sent, d);
      assert Renew(e, m, a1.sent, d).sent[|t|] == a1.sent[|t|];
    }
  }

  /**
   * The flow's result is what the last PUT's reply reads back to: after
   * one PUT it is that PUT's outcome, which is not RegistrationGone (any
   * other error propagates with no retry); after the retry's POST and
   * second PUT it is the second PUT's outcome, whatever it is, so a
   * second 410 surfaces as RegistrationGone. A POST that gives no id ends
   * the flow with its error: the first one, when no id was cached, or the
   * retry's.
   */
  lemma RetryResult(e: Env, m: map<string, string>, sent: seq<Request>, d: RegData)
    requires CanSend(e.connection, e.platform)
    ensures var a := Retry(e, m, sent, d);
      var put := |sent| + if IsBlank(Lookup(m, NameKey(d.custom.name))) then 1 else 0;
      && (|a.sent| == put ==>
            put == |sent| + 1 && NewIdFailed(e, a.sent, |sent|, a.result))
      && (|a.sent| == put + 1 ==>
            a.result == UpsertOutcome(Classify(e.respond(put, a.sent[put]), None), e.hubPath, e.hooks)
            && a.result != Failure(RegistrationGone))
      && (|a.sent| == put + 2 ==> NewIdFailed(e, a.sent, put + 1, a.result))
      && (|a.sent| == put + 3 ==>
            a.result == UpsertOutcome(Classify(e.respond(put + 2, a.sent[put + 2]), None), e.hubPath, e.hooks))
  {
    var first := FirstId(e, m, sent, d.custom.name);
    FirstIdShape(e, m, sent, d.custom.name);
    if first.0.Success? {
      var d1 := d.(registrationId := Some(first.0.value));
      UpsertOrRenewResult(e, m, first.1, d1);
      UpsertOrRenewTrace(e, m, first.1, d1);
    } else if IsBlank(Lookup(m, NameKey(d.custom.name))) {
      CreateStepResult(e, sent);
    }
  }

  /** The POST at position i of t was answered without a usable id, and result is its error. */
  ghost predicate NewIdFailed(e: Env, t: seq<Request>, i: nat, result: Result<RegData, Error>) {
    i < |t| &&
    var id := NewId(Classify(e.respond(i, t[i]), Some(NewRegistrationLocationHeader)), e.uriPath);
    id.Failure? && result == Failure(id.error)
  }

  /** With credentials, createRegistrationId sends its POST and its result is that POST's reply read back. */
  lemma CreateStepResult(e: Env, sent: seq<Request>)
    requires CanSend(e.connection, e.platform)
    ensures var (id, t) := CreateStep(e, sent);
      |t| == |sent| + 1 && id == NewId(Classify(e.respond(|sent|, t[|sent|]), Some(NewRegistrationLocationHeader)), e.uriPath)
  {
  }

  /** The upsert-and-retry's result is the outcome of its last PUT. */
  lemma UpsertOrRenewResult(e: Env, m: map<string, string>, t: seq<Request>, d: RegData)
    requires CanSend(e.connection, e.platform)
    ensures var a := UpsertOrRenew(e, m, t, d);
      && (|a.sent| == |t| + 1 ==>
            a.result == UpsertOutcome(Classify(e.respond(|t|, a.sent[|t|]), None), e.hubPath, e.hooks)
            && a.result != Failure(RegistrationGone))
      && (|a.sent| == |t| + 2 ==> NewIdFailed(e, a.sent, |t| + 1, a.result))
      && (|a.sent| == |t| + 3 ==>
            a.result == UpsertOutcome(Classify(e.respond(|t| + 2, a.sent[|t| + 2]), None), e.hubPath, e.hooks))
  {
    var a1 := UpsertStep(e, m, t, d);
    UpsertStepResult(e, m, t, d);
    if a1.result == Failure(RegistrationGone) {
      var created := CreateStep(e, a1.sent);
      CreateStepResult(e, a1.sent);
      if created.0.Success? {
        UpsertStepResult(e, m, created.1, d.(registrationId := Some(created.0.value)));
      }
    }
  }

  /** With credentials, the upsert sends its PUT and its result is that PUT's reply read back. */
  lemma UpsertStepResult(e: Env, m: map<string, string>, sent: seq<Request>, d: RegData)
    requires CanSend(e.connection, e.platform)
    ensures var a := UpsertStep(e, m, sent, d);
      |a.sent| == |sent| + 1 && a.result == UpsertOutcome(Classify(e.respond(|sent|, a.sent[|sent|]), None), e.hubPath, e.hooks)
  {
  }

  /**
   * The store changes only when a registration came back from the hub,
   * and then by caching the id under the returned name.
   */
  lemma RetryStore(e: Env, m: map<string, string>, sent: seq<Request>, d: RegData)
    ensures var a := Retry(e, m, sent, d);
      && (a.result.Failure? ==> a.store == m)
      && (a.result.Success? ==>
            a.store == StoreId(m, a.result.value.custom.name, a.result.value.registrationId, d.custom.pnsHandle))
  {
    var first := FirstId(e, m, sent, d.custom.name);
    if first.0.Success? {
      UpsertOrRenewStore(e, m, first.1, d.(registrationId := Some(first.0.value)));
    }
  }

  /** The upsert-and-retry changes the store only by caching a registration that came back. */
  lemma UpsertOrRenewStore(e: Env, m: map<string, string>, t: seq<Request>, d: RegData)
    ensures var a := UpsertOrRenew(e, m, t, d);
      && (a.result.Failure? ==> a.store == m)
      && (a.result.Success? ==>
            a.store == StoreId(m, a.result.value.custom.name, a.result.value.registrationId, d.custom.pnsHandle))
  {
    var a1 := UpsertStep(e, m, t, d);
    UpsertStepShape(e, m, t, d);
    if a1.result == Failure(RegistrationGone) {
      var created := CreateStep(e, a1.sent);
      if created.0.Success? {
        UpsertStepShape(e, m, created.1, d.(registrationId := Some(created.0.value)));
      }
    }
  }

  /** The one request a refresh sends. */
  const ListVerbs: seq<string> := ["GET"]

  /**
   * A refresh of a non-blank handle sends one GET when the request can be
   * built; a blank handle is refused before anything is sent or dropped.
   */
  lemma RefreshStepShape(e: Env, m: map<string, string>, sent: seq<Request>, handle: Option<string>)
    ensures var (o, m', t) := RefreshStep(e, m, sent, handle);
      && (IsBlank(handle) ==> o.Fail? && m' == m && t == sent)
      && (!IsBlank(handle) && CanSend(e.connection, e.platform) ==> FollowsPlan(t, sent, ListVerbs) && |t| == |sent| + 1)
      && (!IsBlank(handle) && !CanSend(e.connection, e.platform) ==> o.Fail? && m' == Purge(m, RegistrationNamePrefix) && t == sent)
  {
    if !IsBlank(handle) {
      AfterPlan(sent, ListRequest(e.connection, e.platform, e.hooks, e.hubPath, handle.value, e.clock(|sent|)), ListVerbs[0]);
    }
  }

  /**
   * When a refresh is due, registerInternal sends the GET first and then
   * the retry's requests against the refreshed store; after a failed
   * refresh it sends nothing more, fails, and keeps the refresh due.
   */
  lemma RegisterRefreshesFirst(e: Env, m: map<string, string>, sent: seq<Request>, d: RegData)
    requires CanSend(e.connection, e.platform) && !IsBlank(RefreshHandle(m, d))
    ensures var p := RefreshStep(e, m, sent, RefreshHandle(m, d));
      var (a, due) := RegisterStep(e, m, sent, true, d);
      && FollowsPlan(a.sent, sent, ListVerbs + RetryPlan(IsBlank(Lookup(p.1, NameKey(d.custom.name)))))
      && (due <==> p.0.Fail?)
      && (due ==> a.result.Failure? && |a.sent| == |sent| + 1)
  {
    var p := RefreshStep(e, m, sent, RefreshHandle(m, d));
    RefreshStepShape(e, m, sent, RefreshHandle(m, d));
    var plan := RetryPlan(IsBlank(Lookup(p.1, NameKey(d.custom.name))));
    if p.0.Pass? {
      RetryTrace(e, p.1, p.2, d);
      FollowsPlanThen(p.2, Retry(e, p.1, p.2, d).sent, sent, ListVerbs, plan);
    } else {
      FollowsPlanLonger(p.2, sent, ListVerbs, plan);
    }
  }

  /** A registration that succeeds leaves no refresh due. */
  lemma RegisterSuccessClearsRefresh(e: Env, m: map<string, string>, sent: seq<Request>, refreshNeeded: bool, d: RegData)
    ensures var (a, due) := RegisterStep(e, m, sent, refreshNeeded, d);
      && (a.result.Success? ==> !due)
      && (!refreshNeeded ==> !due)
  {
  }
}
