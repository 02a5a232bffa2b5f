/** The lifecycle calls as the service runs them: reading and updating the stored rows step
    by step, with early returns, each proved to be the step of the state machine and so to
    keep the invariant, every decision, every revocation and all live access. */
module AccessService {
  import opened Text
  import opened Ids
  import opened Calendar
  import opened Ledger
  import opened Governance
  import opened Lifecycle
  import opened LifecycleRuns

  class Service {
    const zone: Zone
    var providers: map<Id, Provider>
    var services: map<Id, Lifecycle.Service>
    var requests: map<Id, Request>
    var instances: map<Id, Instance>
    var policies: seq<Policy>
    var quotas: seq<Quota>
    var budgets: seq<Budget>
    var usage: seq<Row>
    var nextId: Id
    /** What the audit trail keeps: creations, and what the provider granted and revoked. */
    var created: map<Id, Id>
    var grantedUpstream: set<Id>
    var revokedUpstream: set<Id>

    function Abs(): Db
      reads this
    {
      Db(providers, services, requests, instances, policies, quotas, budgets, usage, nextId, created,
         grantedUpstream, revokedUpstream)
    }

    constructor (z: Zone, db: Db)
      ensures zone == z && Abs() == db
    {
      zone := z;
      providers, services, requests, instances := db.providers, db.services, db.requests, db.instances;
      policies, quotas, budgets, usage := db.policies, db.quotas, db.budgets, db.usage;
      nextId, created := db.nextId, db.created;
      grantedUpstream, revokedUpstream := db.grantedUpstream, db.revokedUpstream;
    }

    method CreateAiRequest(name: string, requester: string, spec: Spec, tenant: Option<Id>, now: Instant,
                           insertFails: bool)
      returns (err: Option<Error>)
      modifies this
      ensures (Abs(), err) == CreateStep(zone, old(Abs()), name, requester, spec, tenant, now, insertFails)
      ensures KeepsPromises(old(Abs()), Abs())
    {
      hide KeepsPromises;
      CreateKeepsPromises(zone, Abs(), name, requester, spec, tenant, now, insertFails);
      hide HardReasons, LookupService;
      if Blank(name) || spec.service == Unnamed {
        return Some(Incomplete);
      }
      if spec.expiry == Malformed {
        return Some(BadExpiry);
      }
      var found := LookupService(Abs(), spec.service);
      if found.None? {
        return Some(UnknownService);
      }
      var owner := FirstNonEmpty(spec.owner, requester, "");
      var rc := ContextOf(Abs(), found.value, owner, spec.workspace, tenant);
      var hard, _ := EvaluateAiGovernance(zone, None, TablesOf(Abs()), rc, now);
      if hard != [] {
        return Some(Blocked(hard));
      }
      if insertFails {
        return Some(DatabaseError);
      }
      if RequestsNamed(Abs(), name, "dev") != {} {
        return Some(Duplicate);
      }
      var stored := Spec(ById(Some(found.value)), owner, spec.workspace, spec.expiry);
      var req := Request(name, "dev", requester, "ai_service", Some(stored), Pending, NoRef, "", "", tenant, now);
      requests := requests[nextId := req];
      nextId := nextId + 1;
      err := None;
    }

    /** The first half of provisioning: lookups, the gate, and the provider's answer. */
    method AskProvider(rid: Id, now: Instant, f: Faults) returns (outcome: Outcome)
      requires rid in requests
      ensures outcome == ProvisionOutcome(zone, Abs(), rid, now, f)
    {
      hide HardReasons, LookupService, TablesOf, ContextOf, FirstNonEmpty, ExpiresAt;
      var req := requests[rid];
      if req.spec.None? {
        return Refusal(BadSpec);
      }
      var spec := req.spec.value;
      var found := LookupService(Abs(), spec.service);
      if found.None? {
        return Refusal(UnknownService);
      }
      var sid := found.value;
      if f.registry {
        return Refusal(UnregisteredType);
      }
      var owner := FirstNonEmpty(spec.owner, req.requester, "unknown");
      var workspace := FirstNonEmpty(spec.workspace, req.environment, "default");
      var expires := ExpiresAt(spec.expiry, req.createdAt, services[sid].defaultDays);
      if expires.None? {
        return Refusal(BadExpiry);
      }
      var rc := ContextOf(Abs(), sid, owner, workspace, req.tenant);
      var hard, _ := EvaluateAiGovernance(zone, None, TablesOf(Abs()), rc, now);
      if hard != [] {
        return Refusal(Blocked(hard));
      }
      if f.provider {
        return Refusal(ProviderError);
      }
      outcome := Grant(Instance(sid, rid, owner, workspace, req.tenant, Active, expires.value, now, None));
    }

    /** Both halves: what the provider granted is granted whether or not its row gets stored. */
    method ProvisionAiRequest(rid: Id, now: Instant, f: Faults, seed: seq<Row>) returns (err: Option<Error>, inst: Id)
      requires rid in requests
      modifies this
      ensures (Abs(), err) == ProvisionStep(zone, old(Abs()), rid, now, f, seed)
      ensures inst == old(nextId)
    {
      hide ProvisionOutcome;
      inst := nextId;
      var outcome := AskProvider(rid, now, f);
      if outcome.Refusal? {
        return Some(outcome.error), inst;
      }
      grantedUpstream := grantedUpstream + {rid};
      if f.insert {
        return Some(DatabaseError), inst;
      }
      instances := instances[inst := outcome.inst];
      created := created[inst := rid];
      nextId := nextId + 1;
      usage := usage + seed;
      err := None;
    }

    /** Deciding a pending request, provisioning it, and recording the outcome if that works. */
    method ProvisionApproved(rid: Id, actor: string, now: Instant, f: Faults,
                             seed: seq<Row>) returns (err: Option<Error>)
      requires rid in requests
      modifies this
      ensures (Abs(), err) == DecideAndProvision(zone, old(Abs()), rid, actor, now, f, seed)
    {
      hide ProvisionStep;
      var req := requests[rid];
      requests := requests[rid := req.(status := Approved, decidedBy := actor, reason := "")];
      var resource: Id := nextId;
      if req.kind == "ai_service" {
        err, resource := ProvisionAiRequest(rid, now, f, seed);
      } else {
        err := Some(UnknownKind);
      }
      ghost var decided := WithRequest(old(Abs()), rid, req.(status := Approved, decidedBy := actor, reason := ""));
      ProvisionKeepsRequests(zone, decided, rid, now, f, seed);
      if err.Some? {
        if !f.record {
          requests := requests[rid := requests[rid].(status := RequestStatus.Failed, ref := Named(req.name))];
        }
        return;
      }
      if !f.record {
        requests := requests[rid := requests[rid].(status := Completed, ref := Instanced(resource))];
      }
    }

    method ApproveRequest(name: string, environment: string, actor: string, now: Instant, f: Faults, seed: seq<Row>)
      returns (err: Option<Error>)
      modifies this
      ensures (Abs(), err) == ApproveStep(zone, old(Abs()), name, environment, actor, now, f, seed)
      ensures KeepsPromises(old(Abs()), Abs())
    {
      hide KeepsPromises, DecideAndProvision, FindRequest;
      ApproveKeepsPromises(zone, Abs(), name, environment, actor, now, f, seed);
      var env := environment;
      if env == "" {
        env := "dev";
      }
      var found := FindRequest(Abs(), name, env);
      if found.None? {
        return Some(NotFound);
      }
      FoundRequestExists(Abs(), name, env);
      if requests[found.value].status != Pending {
        return Some(NotPending);
      }
      if f.decide {
        return Some(DatabaseError);
      }
      err := ProvisionApproved(found.value, actor, now, f, seed);
    }

    method RejectRequest(name: string, environment: string, actor: string, reason: string, decideFails: bool)
      returns (err: Option<Error>)
      modifies this
      ensures (Abs(), err) == RejectStep(old(Abs()), name, environment, actor, reason, decideFails)
      ensures KeepsPromises(old(Abs()), Abs())
    {
      hide KeepsPromises;
      RejectKeepsPromises(zone, Abs(), name, environment, actor, reason, decideFails);
      var env := environment;
      if env == "" {
        env := "dev";
      }
      var found := FindRequest(Abs(), name, env);
      if found.None? {
        return Some(NotFound);
      }
      var req := requests[found.value];
      if req.status != Pending {
        return Some(NotPending);
      }
      if decideFails {
        return Some(DatabaseError);
      }
      requests := requests[found.value := req.(status := Rejected, decidedBy := actor, reason := reason)];
      err := None;
    }

    method RevokeAiInstance(id: Id, now: Instant, providerFails: bool, writeFails: bool) returns (err: Option<Error>)
      modifies this
      ensures (Abs(), err) == RevokeStep(old(Abs()), id, now, providerFails, writeFails)
      ensures KeepsPromises(old(Abs()), Abs())
    {
      hide KeepsPromises;
      RevokeKeepsPromises(zone, Abs(), id, now, providerFails, writeFails);
      if id !in instances {
        return Some(NotFound);
      }
      var inst := instances[id];
      if inst.status != Active && inst.status != Suspended {
        return Some(NotLive);
      }
      if inst.service !in services || services[inst.service].provider !in providers {
        return Some(NotFound);
      }
      if providerFails {
        return Some(ProviderError);
      }
      revokedUpstream := revokedUpstream + {id};
      if writeFails {
        return Some(DatabaseError);
      }
      instances := instances[id := inst.(status := Revoked, revokedAt := Some(now))];
      err := None;
    }

    method RecertifyAiInstance(id: Id, extendDays: int, now: Instant, writeFails: bool) returns (err: Option<Error>)
      modifies this
      ensures (Abs(), err) == RecertifyStep(old(Abs()), id, extendDays, now, writeFails)
      ensures KeepsPromises(old(Abs()), Abs())
    {
      hide KeepsPromises;
      RecertifyKeepsPromises(zone, Abs(), id, extendDays, now, writeFails);
      var days := extendDays;
      if days <= 0 {
        days := 90;
      }
      if id !in instances {
        return Some(NotFound);
      }
      if !Live(instances[id]) {
        return Some(NotLive);
      }
      if writeFails {
        return Some(DatabaseError);
      }
      instances := instances[id := instances[id].(expiresAt := Some(now + days * DAY))];
      err := None;
    }

    /** The reaper walks the list of instances; only its own revocations change rows meanwhile. */
    method ReapExpiredAiInstances(ids: seq<Id>, now: Instant, refusing: set<Id>,
                                  unwritable: set<Id>) returns (reaped: nat)
      modifies this
      ensures (Abs(), reaped) == ReapStep(old(Abs()), ids, now, refusing, unwritable)
      ensures KeepsPromises(old(Abs()), Abs())
    {
      hide KeepsPromises;
      ReapKeepsPromises(zone, Abs(), ids, now, refusing, unwritable);
      hide RevokeStep;
      reaped := 0;
      for k := 0 to |ids|
        invariant ReapStep(Abs(), ids[k..], now, refusing, unwritable).0
               == ReapStep(old(Abs()), ids, now, refusing, unwritable).0
        invariant reaped + ReapStep(Abs(), ids[k..], now, refusing, unwritable).1
               == ReapStep(old(Abs()), ids, now, refusing, unwritable).1
      {
        var id := ids[k];
        assert ids[k..][0] == id && ids[k..][1..] == ids[k + 1..];
        if id !in instances || !Live(instances[id]) {
          continue;
        }
        if instances[id].expiresAt.None? || instances[id].expiresAt.value > now {
          continue;
        }
        var err := RevokeAiInstance(id, now, id in refusing, id in unwritable);
        if err.Some? {
          continue;
        }
        reaped := reaped + 1;
      }
    }

    method DeleteAiProvider(name: string, clearFails: bool, deleteFails: bool) returns (err: Option<Error>)
      modifies this
      ensures (Abs(), err) == DeleteProviderStep(old(Abs()), name, clearFails, deleteFails)
      ensures KeepsPromises(old(Abs()), Abs())
    {
      hide KeepsPromises;
      DeleteProviderKeepsPromises(zone, Abs(), name, clearFails, deleteFails);
      hide FindProvider, KeptUsage, KeptQuotas;
      var found := FindProvider(Abs(), name);
      if found.None? {
        return Some(NotFound);
      }
      var pid := found.value;
      var gone := InstancesOf(Abs(), pid);
      if exists id :: id in gone && Live(instances[id]) {
        return Some(HasLiveInstances);
      }
      if clearFails {
        return Some(DatabaseError);
      }
      instances := instances - gone;
      usage := KeptUsage(usage, None, gone);
      if deleteFails {
        return Some(DatabaseError);
      }
      var owned := ServicesOf(Abs(), pid);
      providers := providers - {pid};
      services := services - owned;
      quotas := KeptQuotas(quotas, owned);
      usage := KeptUsage(usage, Some(pid), {});
      err := None;
    }
  }

  lemma FoundRequestExists(db: Db, name: string, environment: string)
    requires FindRequest(db, name, environment).Some?
    ensures FindRequest(db, name, environment).value in db.requests
  {
  }

  lemma ProvisionKeepsRequests(z: Zone, db: Db, rid: Id, now: Instant, f: Faults, seed: seq<Row>)
    requires rid in db.requests
    ensures ProvisionStep(z, db, rid, now, f, seed).0.requests == db.requests
  {
    hide HardReasons, LookupService, TablesOf;
  }

  lemma CreateKeepsPromises(z: Zone, db: Db, name: string, requester: string, spec: Spec, tenant: Option<Id>,
                            now: Instant, insertFails: bool)
    ensures KeepsPromises(db, CreateStep(z, db, name, requester, spec, tenant, now, insertFails).0)
  {
    hide CreateStep, KeepsPromises;
    StepKeepsPromises(z, db, Create(name, requester, spec, tenant, now, insertFails));
  }

  lemma ApproveKeepsPromises(z: Zone, db: Db, name: string, environment: string, actor: string, now: Instant,
                             f: Faults, seed: seq<Row>)
    ensures KeepsPromises(db, ApproveStep(z, db, name, environment, actor, now, f, seed).0)
  {
    hide ApproveStep, KeepsPromises;
    StepKeepsPromises(z, db, Approve(name, environment, actor, now, f, seed));
  }

  lemma RejectKeepsPromises(z: Zone, db: Db, name: string, environment: string, actor: string, reason: string,
                            decideFails: bool)
    ensures KeepsPromises(db, RejectStep(db, name, environment, actor, reason, decideFails).0)
  {
    hide RejectStep, KeepsPromises;
    StepKeepsPromises(z, db, Reject(name, environment, actor, reason, decideFails));
  }

  lemma RevokeKeepsPromises(z: Zone, db: Db, id: Id, now: Instant, providerFails: bool, writeFails: bool)
    ensures KeepsPromises(db, RevokeStep(db, id, now, providerFails, writeFails).0)
  {
    hide RevokeStep, KeepsPromises;
    StepKeepsPromises(z, db, Revoke(id, now, providerFails, writeFails));
  }

  lemma RecertifyKeepsPromises(z: Zone, db: Db, id: Id, extendDays: int, now: Instant, writeFails: bool)
    ensures KeepsPromises(db, RecertifyStep(db, id, extendDays, now, writeFails).0)
  {
    hide RecertifyStep, KeepsPromises;
    StepKeepsPromises(z, db, Recertify(id, extendDays, now, writeFails));
  }

  lemma ReapKeepsPromises(z: Zone, db: Db, ids: seq<Id>, now: Instant, refusing: set<Id>, unwritable: set<Id>)
    ensures KeepsPromises(db, ReapStep(db, ids, now, refusing, unwritable).0)
  {
    hide ReapStep, KeepsPromises;
    StepKeepsPromises(z, db, Reap(ids, now, refusing, unwritable));
  }

  lemma DeleteProviderKeepsPromises(z: Zone, db: Db, name: string, clearFails: bool, deleteFails: bool)
    ensures KeepsPromises(db, DeleteProviderStep(db, name, clearFails, deleteFails).0)
  {
    hide DeleteProviderStep, KeepsPromises;
    StepKeepsPromises(z, db, DeleteProvider(name, clearFails, deleteFails));
  }
}
