/** What holds in every state the access lifecycle can reach, and what no step ever does. */
module LifecycleRuns {
  import opened Text
  import opened Ids
  import opened Calendar
  import opened Ledger
  import opened Governance
  import opened Lifecycle

  /** Every call of the lifecycle, with its arguments and what fails during it. Govern is
      any change of the policies, quotas, budgets and usage the gate reads. */
  datatype Event =
    | Create(name: string, requester: string, spec: Spec, tenant: Option<Id>, now: Instant, insertFails: bool)
    | Approve(reqName: string, environment: string, actor: string, at: Instant, faults: Faults, seed: seq<Row>)
    | Reject(rejName: string, rejEnvironment: string, rejector: string, reason: string, decideFails: bool)
    | Revoke(id: Id, when: Instant, providerFails: bool, writeFails: bool)
    | Recertify(rid: Id, extendDays: int, recertifiedAt: Instant, updateFails: bool)
    | Reap(ids: seq<Id>, reapedAt: Instant, refusing: set<Id>, unwritable: set<Id>)
    | DeleteProvider(provider: string, clearFails: bool, deleteFails: bool)
    | AddProvider(p: Provider)
    | AddService(s: Service)
    | Govern(policies: seq<Policy>, quotas: seq<Quota>, budgets: seq<Budget>, usage: seq<Row>)

  function Step(z: Zone, db: Db, e: Event): Db {
    match e
    case Create(n, r, s, t, now, f) => CreateStep(z, db, n, r, s, t, now, f).0
    case Approve(n, env, a, now, f, seed) => ApproveStep(z, db, n, env, a, now, f, seed).0
    case Reject(n, env, a, why, f) => RejectStep(db, n, env, a, why, f).0
    case Revoke(id, now, p, w) => RevokeStep(db, id, now, p, w).0
    case Recertify(id, days, now, w) => RecertifyStep(db, id, days, now, w).0
    case Reap(ids, now, p, w) => ReapStep(db, ids, now, p, w).0
    case DeleteProvider(n, c, d) => DeleteProviderStep(db, n, c, d).0
    case AddProvider(p) => AddProviderStep(db, p)
    case AddService(s) => AddServiceStep(db, s)
    case Govern(ps, qs, bs, us) => db.(policies := ps, quotas := qs, budgets := bs, usage := us)
  }

  function Run(z: Zone, db: Db, events: seq<Event>): Db
    decreases |events|
  {
    if events == [] then db else Run(z, Step(z, db, events[0]), events[1..])
  }

  // -------------------------------------------------------------------- invariant

  /** Ids come from one counter. */
  predicate Numbered(db: Db) {
    && (forall id :: id in db.requests ==> id < db.nextId)
    && (forall id :: id in db.created ==> id < db.nextId)
    && (forall id :: id in db.services ==> id < db.nextId)
    && (forall id :: id in db.providers ==> id < db.nextId)
  }

  predicate MayHaveInstance(status: RequestStatus) {
    status == Approved || status == Completed
  }

  predicate WasApproved(status: RequestStatus) {
    MayHaveInstance(status) || status == RequestStatus.Failed
  }

  /** A request yields at most one instance, ever; none while it is pending, rejected or
      failed; and when it is completed, the one its resource reference names. */
  predicate OneInstancePerRequest(db: Db) {
    && (forall i :: i in db.created ==> db.created[i] in db.requests)
    && (forall i, j :: i in db.created && j in db.created && db.created[i] == db.created[j] ==> i == j)
    && (forall i :: i in db.created ==> MayHaveInstance(db.requests[db.created[i]].status))
    && (forall r :: r in db.requests && db.requests[r].status == Completed ==>
          && db.requests[r].ref.Instanced?
          && db.requests[r].ref.id in db.created && db.created[db.requests[r].ref.id] == r)
  }

  /** Every stored instance was created for its request, belongs to an existing service of
      an existing provider, and reads revoked only if the provider confirmed it. */
  predicate InstancesResolve(db: Db) {
    && (forall i :: i in db.instances ==> i in db.created && db.created[i] == db.instances[i].request)
    && (forall i :: i in db.instances ==> db.instances[i].service in db.services)
    && (forall s :: s in db.services ==> db.services[s].provider in db.providers)
    && (forall i :: i in db.instances && db.instances[i].status == Revoked ==> i in db.revokedUpstream)
  }

  /** Every instance was granted upstream first, and only for a request that was approved. */
  predicate GrantsRecorded(db: Db) {
    && (forall i :: i in db.created ==> db.created[i] in db.grantedUpstream)
    && (forall r :: r in db.grantedUpstream ==>
          r in db.requests && WasApproved(db.requests[r].status))
  }

  predicate Consistent(db: Db) {
    Numbered(db) && OneInstancePerRequest(db) && InstancesResolve(db) && GrantsRecorded(db)
  }

  function Empty(quotas: seq<Quota>): Db {
    Db(map[], map[], map[], map[], [], quotas, [], [], 0, map[], {}, {})
  }

  /** A request that has no instance, or keeps an approved status, may change. */
  lemma RequestUpdateConsistent(db: Db, rid: Id, req: Request)
    requires Consistent(db) && rid in db.requests
    requires (exists i :: i in db.created && db.created[i] == rid) ==> MayHaveInstance(req.status)
    requires req.status == Completed ==>
               req.ref.Instanced? && req.ref.id in db.created && db.created[req.ref.id] == rid
    requires rid in db.grantedUpstream ==> WasApproved(req.status)
    ensures Consistent(WithRequest(db, rid, req))
  {
    RequestsAside(db, rid, req);
    hide Numbered, InstancesResolve, GrantsRecorded;
    assert OneInstancePerRequest(WithRequest(db, rid, req));
  }

  lemma RequestsAside(db: Db, rid: Id, req: Request)
    requires Numbered(db) && InstancesResolve(db) && GrantsRecorded(db) && rid in db.requests
    requires rid in db.grantedUpstream ==> WasApproved(req.status)
    ensures Numbered(WithRequest(db, rid, req)) && InstancesResolve(WithRequest(db, rid, req))
    ensures GrantsRecorded(WithRequest(db, rid, req))
  {
  }

  lemma PendingHasNoInstance(db: Db, rid: Id)
    requires Consistent(db) && rid in db.requests && db.requests[rid].status == Pending
    ensures rid !in db.grantedUpstream && !exists i :: i in db.created && db.created[i] == rid
  {
  }

  lemma GrantConsistent(db: Db, rid: Id)
    requires Consistent(db) && rid in db.requests && db.requests[rid].status == Approved
    ensures Consistent(db.(grantedUpstream := db.grantedUpstream + {rid}))
  {
  }

  lemma NewInstanceConsistent(db: Db, inst: Instance, seed: seq<Row>)
    requires Consistent(db) && inst.service in db.services && inst.status != Revoked
    requires inst.request in db.requests && db.requests[inst.request].status == Approved
    requires inst.request in db.grantedUpstream && !exists i :: i in db.created && db.created[i] == inst.request
    ensures Consistent(db.(instances := db.instances[db.nextId := inst],
                           created := db.created[db.nextId := inst.request],
                           usage := db.usage + seed, nextId := db.nextId + 1))
  {
  }

  lemma NewRequestConsistent(db: Db, req: Request)
    requires Consistent(db) && req.status == Pending
    ensures Consistent(db.(requests := db.requests[db.nextId := req], nextId := db.nextId + 1))
  {
  }

  lemma CreateConsistent(z: Zone, db: Db, e: Event)
    requires Consistent(db) && e.Create?
    ensures Consistent(Step(z, db, e))
  {
    hide HardReasons, LookupService, TablesOf, Consistent;
    var sid := LookupService(db, e.spec.service);
    if sid.Some? {
      var owner := FirstNonEmpty(e.spec.owner, e.requester, "");
      NewRequestConsistent(db, Request(e.name, "dev", e.requester, "ai_service",
        Some(Spec(ById(sid), owner, e.spec.workspace, e.spec.expiry)), Pending, NoRef, "", "", e.tenant, e.now));
    }
  }

  lemma ProvisionConsistent(z: Zone, db: Db, rid: Id, now: Instant, f: Faults, seed: seq<Row>)
    requires Consistent(db) && rid in db.requests && db.requests[rid].status == Approved
    requires !exists i :: i in db.created && db.created[i] == rid
    ensures Consistent(ProvisionStep(z, db, rid, now, f, seed).0)
    ensures ProvisionStep(z, db, rid, now, f, seed).0.requests == db.requests
    ensures ProvisionStep(z, db, rid, now, f, seed).1.Some? ==>
              ProvisionStep(z, db, rid, now, f, seed).0.created == db.created
    ensures ProvisionStep(z, db, rid, now, f, seed).1.None? ==>
              ProvisionStep(z, db, rid, now, f, seed).0.created == db.created[db.nextId := rid]
  {
    OutcomeFits(z, db, rid, now, f);
    hide ProvisionOutcome, Consistent, RecordOutcome;
    RecordConsistent(db, rid, ProvisionOutcome(z, db, rid, now, f), f.insert, seed);
  }

  lemma RecordConsistent(db: Db, rid: Id, outcome: Outcome, insertFails: bool, seed: seq<Row>)
    requires Consistent(db) && rid in db.requests && db.requests[rid].status == Approved
    requires !exists i :: i in db.created && db.created[i] == rid
    requires FitsRequest(db, rid, outcome)
    ensures var (after, err) := RecordOutcome(db, rid, outcome, insertFails, seed);
            && Consistent(after) && after.requests == db.requests
            && after.created == (if err.Some? then db.created else db.created[db.nextId := rid])
  {
    hide Consistent;
    if outcome.Grant? {
      GrantConsistent(db, rid);
      NewInstanceConsistent(db.(grantedUpstream := db.grantedUpstream + {rid}), outcome.inst, seed);
    }
  }

  predicate FitsRequest(db: Db, rid: Id, outcome: Outcome) {
    outcome.Grant? ==>
      outcome.inst.request == rid && outcome.inst.service in db.services && outcome.inst.status == Active
  }

  lemma OutcomeFits(z: Zone, db: Db, rid: Id, now: Instant, f: Faults)
    requires rid in db.requests
    ensures FitsRequest(db, rid, ProvisionOutcome(z, db, rid, now, f))
  {
    hide HardReasons, TablesOf;
  }

  lemma ApprovalConsistent(z: Zone, db: Db, rid: Id, actor: string, now: Instant, f: Faults, seed: seq<Row>)
    requires Consistent(db) && rid in db.requests && db.requests[rid].status == Pending
    ensures Consistent(DecideAndProvision(z, db, rid, actor, now, f, seed).0)
  {
    hide ProvisionStep, Consistent;
    var req := db.requests[rid];
    var approved := req.(status := Approved, decidedBy := actor, reason := "");
    var decided := WithRequest(db, rid, approved);
    PendingHasNoInstance(db, rid);
    RequestUpdateConsistent(db, rid, approved);
    if req.kind != "ai_service" {
      assert rid !in decided.grantedUpstream;
      RequestUpdateConsistent(decided, rid, approved.(status := Failed, ref := Named(req.name)));
    } else {
      OutcomeConsistent(z, decided, rid, now, f, seed);
    }
  }

  lemma ApproveConsistent(z: Zone, db: Db, e: Event)
    requires Consistent(db) && e.Approve?
    ensures Consistent(Step(z, db, e))
  {
    hide DecideAndProvision, Consistent;
    var found := FindRequest(db, e.reqName, if e.environment == "" then "dev" else e.environment);
    if found.Some? && db.requests[found.value].status == Pending {
      ApprovalConsistent(z, db, found.value, e.actor, e.at, e.faults, e.seed);
    }
  }

  /** Recording how provisioning an approved request went. */
  lemma OutcomeConsistent(z: Zone, db: Db, rid: Id, now: Instant, f: Faults, seed: seq<Row>)
    requires Consistent(db) && rid in db.requests && db.requests[rid].status == Approved
    requires !exists i :: i in db.created && db.created[i] == rid
    ensures var (after, err) := ProvisionStep(z, db, rid, now, f, seed);
            var req := db.requests[rid];
            && Consistent(after)
            && (err.Some? ==> Consistent(WithRequest(after, rid, req.(status := Failed, ref := Named(req.name)))))
            && (err.None? ==>
                 Consistent(WithRequest(after, rid, req.(status := Completed, ref := Instanced(db.nextId)))))
  {
    ProvisionConsistent(z, db, rid, now, f, seed);
    hide ProvisionStep, Consistent;
    var (after, err) := ProvisionStep(z, db, rid, now, f, seed);
    if err.Some? {
      RequestUpdateConsistent(after, rid, db.requests[rid].(status := Failed, ref := Named(db.requests[rid].name)));
    } else {
      RequestUpdateConsistent(after, rid, db.requests[rid].(status := Completed, ref := Instanced(db.nextId)));
    }
  }

  lemma RejectConsistent(z: Zone, db: Db, e: Event)
    requires Consistent(db) && e.Reject?
    ensures Consistent(Step(z, db, e))
  {
    hide Consistent;
    var found := FindRequest(db, e.rejName, if e.rejEnvironment == "" then "dev" else e.rejEnvironment);
    if found.Some? && db.requests[found.value].status == Pending {
      PendingHasNoInstance(db, found.value);
      RequestUpdateConsistent(db, found.value,
        db.requests[found.value].(status := Rejected, decidedBy := e.rejector, reason := e.reason));
    }
  }

  /** An instance may change as long as its request and service stay, and it reads revoked
      only once the provider confirmed that. */
  lemma InstanceUpdateConsistent(db: Db, id: Id, inst: Instance)
    requires Consistent(db) && id in db.instances
    requires inst.request == db.instances[id].request && inst.service == db.instances[id].service
    requires inst.status == Revoked ==> id in db.revokedUpstream
    ensures Consistent(db.(instances := db.instances[id := inst]))
  {
    var next := db.(instances := db.instances[id := inst]);
    InstancesAside(db, next.instances);
    hide Numbered, OneInstancePerRequest, GrantsRecorded;
    forall i | i in next.instances
      ensures i in next.created && next.created[i] == next.instances[i].request
      ensures next.instances[i].service in next.services
      ensures next.instances[i].status == Revoked ==> i in next.revokedUpstream
    {
      assert i in db.instances;
    }
  }

  lemma InstancesAside(db: Db, instances: map<Id, Instance>)
    requires Numbered(db) && OneInstancePerRequest(db) && GrantsRecorded(db)
    ensures Numbered(db.(instances := instances)) && OneInstancePerRequest(db.(instances := instances))
    ensures GrantsRecorded(db.(instances := instances))
  {
  }

  lemma ConfirmationConsistent(db: Db, id: Id)
    requires Consistent(db)
    ensures Consistent(db.(revokedUpstream := db.revokedUpstream + {id}))
  {
  }

  lemma RevokeConsistent(db: Db, id: Id, now: Instant, providerFails: bool, writeFails: bool)
    requires Consistent(db)
    ensures Consistent(RevokeStep(db, id, now, providerFails, writeFails).0)
  {
    hide Consistent;
    var confirmed := db.(revokedUpstream := db.revokedUpstream + {id});
    ConfirmationConsistent(db, id);
    if id in db.instances {
      InstanceUpdateConsistent(confirmed, id, db.instances[id].(status := Revoked, revokedAt := Some(now)));
    }
  }

  lemma RecertifyConsistent(db: Db, id: Id, extendDays: int, now: Instant, writeFails: bool)
    requires Consistent(db)
    ensures Consistent(RecertifyStep(db, id, extendDays, now, writeFails).0)
  {
    hide Consistent;
    if id in db.instances && Live(db.instances[id]) {
      var days := if extendDays <= 0 then 90 else extendDays;
      InstanceUpdateConsistent(db, id, db.instances[id].(expiresAt := Some(now + days * DAY)));
    }
  }

  lemma {:induction false} ReapConsistent(db: Db, ids: seq<Id>, now: Instant, refusing: set<Id>, unwritable: set<Id>)
    requires Consistent(db)
    ensures Consistent(ReapStep(db, ids, now, refusing, unwritable).0)
    decreases |ids|
  {
    hide Consistent, RevokeStep;
    if ids != [] {
      var id := ids[0];
      if id in db.instances && Due(db.instances[id], now) {
        RevokeConsistent(db, id, now, id in refusing, id in unwritable);
        ReapConsistent(RevokeStep(db, id, now, id in refusing, id in unwritable).0,
                       ids[1..], now, refusing, unwritable);
      } else {
        ReapConsistent(db, ids[1..], now, refusing, unwritable);
      }
    }
  }

  lemma FewerInstancesConsistent(db: Db, gone: set<Id>, usage: seq<Row>)
    requires Consistent(db)
    ensures Consistent(db.(instances := db.instances - gone, usage := usage))
  {
  }

  lemma ProviderGoneConsistent(db: Db, pid: Id, quotas: seq<Quota>, usage: seq<Row>)
    requires Consistent(db)
    requires forall i :: i in db.instances ==> db.services[db.instances[i].service].provider != pid
    ensures Consistent(db.(providers := db.providers - {pid}, services := db.services - ServicesOf(db, pid),
                           quotas := quotas, usage := usage))
  {
  }

  lemma DeletionConsistent(db: Db, name: string, clearFails: bool, deleteFails: bool)
    requires Consistent(db)
    ensures Consistent(DeleteProviderStep(db, name, clearFails, deleteFails).0)
  {
    var found := FindProvider(db, name);
    if found.Some? {
      var pid := found.value;
      var gone := InstancesOf(db, pid);
      var cleared := db.(instances := db.instances - gone, usage := KeptUsage(db.usage, None, gone));
      assert forall i :: i in cleared.instances ==>
               i !in gone && cleared.services[cleared.instances[i].service].provider != pid;
      hide Consistent, FindProvider, InstancesOf;
      FewerInstancesConsistent(db, gone, KeptUsage(db.usage, None, gone));
      ProviderGoneConsistent(cleared, pid, KeptQuotas(db.quotas, ServicesOf(db, pid)),
                             KeptUsage(cleared.usage, Some(pid), {}));
    }
  }

  lemma NewProviderConsistent(db: Db, p: Provider)
    requires Consistent(db)
    ensures Consistent(AddProviderStep(db, p))
  {
  }

  lemma NewServiceConsistent(db: Db, s: Service)
    requires Consistent(db)
    ensures Consistent(AddServiceStep(db, s))
  {
  }

  lemma GovernConsistent(db: Db, policies: seq<Policy>, quotas: seq<Quota>, budgets: seq<Budget>, usage: seq<Row>)
    requires Consistent(db)
    ensures Consistent(db.(policies := policies, quotas := quotas, budgets := budgets, usage := usage))
  {
  }

  lemma StepConsistent(z: Zone, db: Db, e: Event)
    requires Consistent(db)
    ensures Consistent(Step(z, db, e))
  {
    hide Consistent;
    match e
    case Create(_, _, _, _, _, _) => CreateConsistent(z, db, e);
    case Approve(_, _, _, _, _, _) => ApproveConsistent(z, db, e);
    case Reject(_, _, _, _, _) => RejectConsistent(z, db, e);
    case Revoke(id, now, p, w) => RevokeConsistent(db, id, now, p, w);
    case Recertify(id, days, now, w) => RecertifyConsistent(db, id, days, now, w);
    case Reap(ids, now, p, w) => ReapConsistent(db, ids, now, p, w);
    case DeleteProvider(n, c, d) => DeletionConsistent(db, n, c, d);
    case AddProvider(p) => NewProviderConsistent(db, p);
    case AddService(s) => NewServiceConsistent(db, s);
    case Govern(ps, qs, bs, us) => GovernConsistent(db, ps, qs, bs, us);
  }

  /** The invariant holds in every reachable state. */
  lemma {:induction false} EveryRunIsConsistent(z: Zone, db: Db, events: seq<Event>)
    requires Consistent(db)
    ensures Consistent(Run(z, db, events))
    decreases |events|
  {
    hide Consistent, Step;
    if events != [] {
      StepConsistent(z, db, events[0]);
      EveryRunIsConsistent(z, Step(z, db, events[0]), events[1..]);
    }
  }

  lemma FreshDatabaseConsistent(z: Zone, quotas: seq<Quota>, events: seq<Event>)
    ensures Consistent(Run(z, Empty(quotas), events))
  {
    assert Consistent(Empty(quotas));
    hide Consistent;
    EveryRunIsConsistent(z, Empty(quotas), events);
  }

  // --------------------------------------------------------- what no call ever does

  /** Decided requests are final; the record of created instances only grows, and a
      deleted instance never comes back; a revoked instance never changes again. */
  ghost predicate Evolves(db: Db, next: Db) {
    && (forall r :: r in db.requests ==> r in next.requests)
    && (forall r :: r in db.requests && db.requests[r].status != Pending ==> next.requests[r] == db.requests[r])
    && (forall i :: i in db.created ==> i in next.created && next.created[i] == db.created[i])
    && (forall i :: i in next.instances && i !in db.instances ==> i !in db.created)
    && (forall i :: i in db.instances && db.instances[i].status == Revoked && i in next.instances ==>
          next.instances[i] == db.instances[i])
    && db.revokedUpstream <= next.revokedUpstream
  }

  /** Live access survives a call, possibly revoked by it, and keeps its owner, service
      and request. */
  ghost predicate KeepsLive(db: Db, next: Db) {
    forall i :: i in db.instances && Live(db.instances[i]) ==>
      && i in next.instances
      && next.instances[i].owner == db.instances[i].owner
      && next.instances[i].service == db.instances[i].service
      && next.instances[i].request == db.instances[i].request
  }

  lemma EvolvesTransitive(a: Db, b: Db, c: Db)
    requires Consistent(a) && Evolves(a, b) && Evolves(b, c)
    ensures Evolves(a, c)
  {
    hide Numbered, OneInstancePerRequest;
    forall i | i in a.instances && a.instances[i].status == Revoked && i in c.instances
      ensures c.instances[i] == a.instances[i]
    {
      assert i in a.created && i in b.created;
    }
  }

  /** A step that only decides a pending request or adds rows keeps everything else. */
  lemma AdditionEvolves(db: Db, next: Db)
    requires forall r :: r in db.requests ==>
               r in next.requests && (db.requests[r].status != Pending ==> next.requests[r] == db.requests[r])
    requires forall i :: i in db.created ==> i in next.created && next.created[i] == db.created[i]
    requires forall i :: i in next.instances && i !in db.instances ==> i !in db.created
    requires forall i :: i in db.instances ==> i in next.instances && next.instances[i] == db.instances[i]
    requires db.revokedUpstream == next.revokedUpstream
    ensures Evolves(db, next) && KeepsLive(db, next)
  {
  }

  lemma CreateEvolves(z: Zone, db: Db, e: Event)
    requires Consistent(db) && e.Create?
    ensures Evolves(db, Step(z, db, e)) && KeepsLive(db, Step(z, db, e))
  {
    hide HardReasons, LookupService, TablesOf, Evolves, KeepsLive, OneInstancePerRequest, InstancesResolve;
    AdditionEvolves(db, Step(z, db, e));
  }

  lemma ProvisionEvolves(z: Zone, db: Db, rid: Id, now: Instant, f: Faults, seed: seq<Row>)
    requires Consistent(db) && rid in db.requests
    ensures var after := ProvisionStep(z, db, rid, now, f, seed).0;
            && after.requests == db.requests && after.revokedUpstream == db.revokedUpstream
            && (forall i :: i in db.created ==> i in after.created && after.created[i] == db.created[i])
            && (forall i :: i in after.instances && i !in db.instances ==> i !in db.created)
            && (forall i :: i in db.instances ==> i in after.instances && after.instances[i] == db.instances[i])
  {
    hide ProvisionOutcome, OneInstancePerRequest, GrantsRecorded;
  }

  lemma ApprovalEvolves(z: Zone, db: Db, rid: Id, actor: string, now: Instant, f: Faults, seed: seq<Row>)
    requires Consistent(db) && rid in db.requests && db.requests[rid].status == Pending
    ensures var next := DecideAndProvision(z, db, rid, actor, now, f, seed).0;
            && Evolves(db, next) && KeepsLive(db, next) && next.revokedUpstream == db.revokedUpstream
            && forall i :: i in db.instances ==> i in next.instances && next.instances[i] == db.instances[i]
  {
    hide ProvisionStep, Consistent, Evolves, KeepsLive;
    var approved := db.requests[rid].(status := Approved, decidedBy := actor, reason := "");
    PendingHasNoInstance(db, rid);
    RequestUpdateConsistent(db, rid, approved);
    ProvisionEvolves(z, WithRequest(db, rid, approved), rid, now, f, seed);
    AdditionEvolves(db, DecideAndProvision(z, db, rid, actor, now, f, seed).0);
  }

  lemma ApproveEvolves(z: Zone, db: Db, e: Event)
    requires Consistent(db) && e.Approve?
    ensures Evolves(db, Step(z, db, e)) && KeepsLive(db, Step(z, db, e))
    ensures Step(z, db, e).revokedUpstream == db.revokedUpstream
    ensures forall i :: i in db.instances ==>
              i in Step(z, db, e).instances && Step(z, db, e).instances[i] == db.instances[i]
  {
    hide DecideAndProvision, Consistent, Evolves, KeepsLive;
    var found := FindRequest(db, e.reqName, if e.environment == "" then "dev" else e.environment);
    if found.Some? && db.requests[found.value].status == Pending && !e.faults.decide {
      ApprovalEvolves(z, db, found.value, e.actor, e.at, e.faults, e.seed);
    } else {
      AdditionEvolves(db, db);
    }
  }

  lemma RejectEvolves(db: Db, e: Event)
    requires e.Reject?
    ensures var next := RejectStep(db, e.rejName, e.rejEnvironment, e.rejector, e.reason, e.decideFails).0;
            Evolves(db, next) && KeepsLive(db, next)
  {
    hide Evolves, KeepsLive;
    AdditionEvolves(db, RejectStep(db, e.rejName, e.rejEnvironment, e.rejector, e.reason, e.decideFails).0);
  }

  /** Same rows, with owner, service and request as before. */
  ghost predicate SameGrants(db: Db, next: Db) {
    && next.instances.Keys == db.instances.Keys
    && forall i :: i in db.instances ==>
         && next.instances[i].owner == db.instances[i].owner
         && next.instances[i].service == db.instances[i].service
         && next.instances[i].request == db.instances[i].request
  }

  lemma SameGrantsKeepLive(db: Db, next: Db)
    requires SameGrants(db, next)
    ensures KeepsLive(db, next)
  {
  }

  /** Rewriting a row that is not revoked, keeping its owner, service and request. */
  lemma InstanceUpdateEvolves(db: Db, next: Db, id: Id, inst: Instance)
    requires id in db.instances && db.instances[id].status != Revoked
    requires inst.owner == db.instances[id].owner && inst.service == db.instances[id].service
    requires inst.request == db.instances[id].request
    requires next.instances == db.instances[id := inst] && next.requests == db.requests
    requires next.created == db.created && db.revokedUpstream <= next.revokedUpstream
    ensures Evolves(db, next) && SameGrants(db, next)
  {
  }

  lemma RowsAsideEvolves(db: Db, next: Db)
    requires next.instances == db.instances && next.requests == db.requests
    requires next.created == db.created && db.revokedUpstream <= next.revokedUpstream
    ensures Evolves(db, next) && SameGrants(db, next)
  {
  }

  lemma RevokeEvolves(db: Db, id: Id, now: Instant, providerFails: bool, writeFails: bool)
    ensures Evolves(db, RevokeStep(db, id, now, providerFails, writeFails).0)
    ensures SameGrants(db, RevokeStep(db, id, now, providerFails, writeFails).0)
    ensures RevokeStep(db, id, now, providerFails, writeFails).0.revokedUpstream
         <= db.revokedUpstream + (if providerFails then {} else {id})
  {
    hide Evolves, SameGrants;
    var (next, err) := RevokeStep(db, id, now, providerFails, writeFails);
    if err.None? {
      InstanceUpdateEvolves(db, next, id, next.instances[id]);
    } else {
      RowsAsideEvolves(db, next);
    }
  }

  lemma RecertifyEvolves(db: Db, id: Id, days: int, now: Instant, writeFails: bool)
    ensures Evolves(db, RecertifyStep(db, id, days, now, writeFails).0)
    ensures SameGrants(db, RecertifyStep(db, id, days, now, writeFails).0)
  {
    hide Evolves, SameGrants;
    var (next, err) := RecertifyStep(db, id, days, now, writeFails);
    if err.None? {
      InstanceUpdateEvolves(db, next, id, next.instances[id]);
    } else {
      RowsAsideEvolves(db, next);
    }
  }

  lemma {:induction false} ReapEvolves(db: Db, ids: seq<Id>, now: Instant, refusing: set<Id>, unwritable: set<Id>)
    requires Consistent(db)
    ensures Evolves(db, ReapStep(db, ids, now, refusing, unwritable).0)
    ensures SameGrants(db, ReapStep(db, ids, now, refusing, unwritable).0)
    ensures forall i :: i in ReapStep(db, ids, now, refusing, unwritable).0.revokedUpstream ==>
              i in db.revokedUpstream || (i in ids && i !in refusing)
    decreases |ids|
  {
    hide Consistent, RevokeStep, Evolves, SameGrants;
    if ids == [] {
      EvolvesReflexive(db);
      SameGrantsReflexive(db);
    } else {
      var id := ids[0];
      if id in db.instances && Due(db.instances[id], now) {
        var next := RevokeStep(db, id, now, id in refusing, id in unwritable).0;
        RevokeConsistent(db, id, now, id in refusing, id in unwritable);
        RevokeEvolves(db, id, now, id in refusing, id in unwritable);
        ReapEvolves(next, ids[1..], now, refusing, unwritable);
        var last := ReapStep(next, ids[1..], now, refusing, unwritable).0;
        EvolvesTransitive(db, next, last);
        SameGrantsTransitive(db, next, last);
      } else {
        ReapEvolves(db, ids[1..], now, refusing, unwritable);
      }
    }
  }

  lemma SameGrantsReflexive(db: Db)
    ensures SameGrants(db, db)
  {
  }

  lemma SameGrantsTransitive(a: Db, b: Db, c: Db)
    requires SameGrants(a, b) && SameGrants(b, c)
    ensures SameGrants(a, c)
  {
    forall i | i in a.instances
      ensures i in b.instances && i in c.instances
      ensures c.instances[i].owner == a.instances[i].owner && c.instances[i].service == a.instances[i].service
           && c.instances[i].request == a.instances[i].request
    {
      assert i in b.instances.Keys && i in c.instances.Keys;
    }
  }

  lemma DeletionEvolves(db: Db, name: string, clearFails: bool, deleteFails: bool)
    ensures Evolves(db, DeleteProviderStep(db, name, clearFails, deleteFails).0)
    ensures KeepsLive(db, DeleteProviderStep(db, name, clearFails, deleteFails).0)
  {
    hide KeptUsage, KeptQuotas, FindProvider;
  }

  lemma CatalogEvolves(z: Zone, db: Db, e: Event)
    requires e.AddProvider? || e.AddService? || e.Govern?
    ensures Evolves(db, Step(z, db, e)) && KeepsLive(db, Step(z, db, e))
  {
    hide Evolves, KeepsLive;
    AdditionEvolves(db, Step(z, db, e));
  }

  lemma StepEvolves(z: Zone, db: Db, e: Event)
    requires Consistent(db)
    ensures Evolves(db, Step(z, db, e)) && KeepsLive(db, Step(z, db, e))
  {
    hide Consistent, Evolves, KeepsLive, SameGrants, CreateStep, ApproveStep, RejectStep, RevokeStep,
         RecertifyStep, ReapStep, DeleteProviderStep, AddProviderStep, AddServiceStep;
    match e
    case Create(_, _, _, _, _, _) => CreateEvolves(z, db, e);
    case Approve(_, _, _, _, _, _) => ApproveEvolves(z, db, e);
    case Reject(_, _, _, _, _) => RejectEvolves(db, e);
    case Revoke(id, now, p, w) =>
      RevokeEvolves(db, id, now, p, w);
      SameGrantsKeepLive(db, RevokeStep(db, id, now, p, w).0);
    case Recertify(id, days, now, w) =>
      RecertifyEvolves(db, id, days, now, w);
      SameGrantsKeepLive(db, RecertifyStep(db, id, days, now, w).0);
    case Reap(ids, now, p, w) =>
      ReapEvolves(db, ids, now, p, w);
      SameGrantsKeepLive(db, ReapStep(db, ids, now, p, w).0);
    case DeleteProvider(n, c, d) => DeletionEvolves(db, n, c, d);
    case _ => CatalogEvolves(z, db, e);
  }

  /** From a consistent state: the invariant, the decisions, the revocations and the live
      access are all kept. */
  ghost predicate KeepsPromises(db: Db, next: Db) {
    Consistent(db) ==> Consistent(next) && Evolves(db, next) && KeepsLive(db, next)
  }

  lemma StepKeepsPromises(z: Zone, db: Db, e: Event)
    ensures KeepsPromises(db, Step(z, db, e))
  {
    hide Consistent, Evolves, KeepsLive, Step;
    if Consistent(db) {
      StepConsistent(z, db, e);
      StepEvolves(z, db, e);
    }
  }

  /** Over any run: no decision is taken back, no revoked instance changes, none returns. */
  lemma {:induction false} RunEvolves(z: Zone, db: Db, events: seq<Event>)
    requires Consistent(db)
    ensures Evolves(db, Run(z, db, events))
    decreases |events|
  {
    hide Consistent, Step, Evolves;
    if events == [] {
      EvolvesReflexive(db);
    } else {
      var next := Step(z, db, events[0]);
      StepConsistent(z, db, events[0]);
      StepEvolves(z, db, events[0]);
      RunEvolves(z, next, events[1..]);
      EvolvesTransitive(db, next, Run(z, next, events[1..]));
    }
  }

  lemma EvolvesReflexive(db: Db)
    ensures Evolves(db, db)
  {
  }

  /** The provider's confirmation of a revocation is recorded only by a revocation of that
      instance, manual or by the reaper, whose provider call succeeded. */
  lemma ConfirmedOnlyByProvider(z: Zone, db: Db, e: Event, i: Id)
    requires Consistent(db)
    requires i in Step(z, db, e).revokedUpstream && i !in db.revokedUpstream
    ensures || (e.Revoke? && e.id == i && !e.providerFails)
            || (e.Reap? && i in e.ids && i !in e.refusing)
  {
    hide CreateStep, ApproveStep, RevokeStep, ReapStep, Evolves, SameGrants;
    match e
    case Revoke(id, now, p, w) => RevokeEvolves(db, id, now, p, w);
    case Reap(ids, now, p, w) => ReapEvolves(db, ids, now, p, w);
    case Approve(_, _, _, _, _, _) => ApproveEvolves(z, db, e);
    case Create(_, _, _, _, _, _) => CreateConfirmsNothing(z, db, e);
    case _ =>
  }

  lemma CreateConfirmsNothing(z: Zone, db: Db, e: Event)
    requires e.Create?
    ensures Step(z, db, e).revokedUpstream == db.revokedUpstream
  {
    hide HardReasons, LookupService, TablesOf;
  }

  function InstancesEverFor(db: Db, rid: Id): set<Id> {
    set i | i in db.created && db.created[i] == rid
  }

  /** In every state reachable from a fresh database: a pending, rejected or failed request
      never yielded an instance; a completed one yielded exactly the instance it refers
      to; and an approved one, whose outcome could not be recorded, at most one. */
  lemma RequestYieldsItsInstance(z: Zone, quotas: seq<Quota>, events: seq<Event>, rid: Id)
    requires rid in Run(z, Empty(quotas), events).requests
    ensures var db := Run(z, Empty(quotas), events);
            match db.requests[rid].status
            case Pending => InstancesEverFor(db, rid) == {}
            case Rejected => InstancesEverFor(db, rid) == {}
            case Failed => InstancesEverFor(db, rid) == {}
            case Completed => db.requests[rid].ref.Instanced? && InstancesEverFor(db, rid) == {db.requests[rid].ref.id}
            case Approved => |InstancesEverFor(db, rid)| <= 1
  {
    FreshDatabaseConsistent(z, quotas, events);
    var db := Run(z, Empty(quotas), events);
    hide Run;
    var made := InstancesEverFor(db, rid);
    if made != {} {
      var i :| i in made;
      assert made == {i};
    }
  }
}
