/** From what a caller asks for to what is stored and, after approval, granted; and what the
    decisions about a request and the revocation of an instance leave behind. */
module Requests {
  import opened Text
  import opened Ids
  import opened Calendar
  import opened Ledger
  import opened Governance
  import opened Lifecycle
  import opened LifecycleRuns
  import opened Admission

  /** No two requests share name and environment. */
  predicate NamesUnique(db: Db) {
    forall r, t :: r in db.requests && t in db.requests && SameName(db.requests[r], db.requests[t]) ==> r == t
  }

  predicate SameName(a: Request, b: Request) {
    a.name == b.name && a.environment == b.environment
  }

  /** A created request says what its caller said: who asks, for what, for whom, where and
      until when; the owner is whoever asks if none is named. */
  predicate SaysWhatWasAsked(req: Request, name: string, requester: string, spec: Spec, tenant: Option<Id>,
                             now: Instant) {
    && req.status == Pending && req.kind == "ai_service" && req.environment == "dev"
    && req.name == name && req.requester == requester && req.tenant == tenant && req.createdAt == now
    && req.ref == NoRef && req.decidedBy == "" && req.reason == ""
    && req.spec.Some?
    && req.spec.value.expiry == spec.expiry
    && req.spec.value.workspace == spec.workspace
    && req.spec.value.owner == (if spec.owner != "" then spec.owner else requester)
  }

  /** It names the service that was looked up, which answers to the key that was given. */
  predicate NamesService(db: Db, stored: ServiceKey, asked: ServiceKey) {
    && stored.ById? && stored.id.Some?
    && stored.id.value in db.services && db.services[stored.id.value].provider in db.providers
    && match asked
       case ById(id) => id == stored.id
       case BySlug(slug) => db.services[stored.id.value].slug == slug
       case Unnamed => false
  }

  /** A creation that succeeds adds exactly one request, the one asked for, while nothing
      stood against the access it describes; one that fails changes nothing. */
  lemma CreationStores(z: Zone, db: Db, name: string, requester: string, spec: Spec, tenant: Option<Id>, now: Instant,
                       f: bool)
    requires Consistent(db)
    ensures var (next, err) := CreateStep(z, db, name, requester, spec, tenant, now, f);
            if err.Some? then next == db
            else
              && next.requests.Keys == db.requests.Keys + {db.nextId} && db.nextId !in db.requests
              && (forall r :: r in db.requests ==> next.requests[r] == db.requests[r])
              && next == db.(requests := next.requests, nextId := db.nextId + 1)
              && SaysWhatWasAsked(next.requests[db.nextId], name, requester, spec, tenant, now)
              && NamesService(db, next.requests[db.nextId].spec.value.service, spec.service)
              && NothingAgainst(z, db, next.requests[db.nextId], now)
              && RequestsNamed(db, name, "dev") == {}
  {
    hide HardReasons, TablesOf, Blocks, RequestsNamed, OneInstancePerRequest, InstancesResolve, GrantsRecorded;
    var (next, err) := CreateStep(z, db, name, requester, spec, tenant, now, f);
    if err.None? {
      var sid := LookupService(db, spec.service).value;
      var owner := if spec.owner != "" then spec.owner else requester;
      VerdictIsExact(z, None, TablesOf(db), AccessContext(db, sid, owner, spec.workspace, tenant), now);
    }
  }

  /** No policy, seat quota or budget stands against the request. */
  ghost predicate NothingAgainst(z: Zone, db: Db, req: Request, now: Instant) {
    && req.spec.Some? && req.spec.value.service.ById? && req.spec.value.service.id.Some?
    && var sid := req.spec.value.service.id.value;
       && sid in db.services && db.services[sid].provider in db.providers
       && var rc := AccessContext(db, sid, req.spec.value.owner, req.spec.value.workspace, req.tenant);
          !Blocks(z, None, TablesOf(db), rc, now)
  }

  // ------------------------------------------------------------- the life of a request

  lemma {:induction false} CreationKeepsNames(z: Zone, db: Db, e: Event)
    requires e.Create? && Consistent(db) && NamesUnique(db)
    ensures NamesUnique(Step(z, db, e))
  {
    CreationStores(z, db, e.name, e.requester, e.spec, e.tenant, e.now, e.insertFails);
    var (next, err) := CreateStep(z, db, e.name, e.requester, e.spec, e.tenant, e.now, e.insertFails);
    assert Step(z, db, e) == next;
    hide CreateStep, Consistent, NothingAgainst, NamesService, Step, NamesUnique;
    if err.None? {
      NewNameUnique(db, next, db.nextId);
    }
  }

  lemma NewNameUnique(db: Db, next: Db, rid: Id)
    requires NamesUnique(db) && rid !in db.requests && next.requests.Keys == db.requests.Keys + {rid}
    requires forall r :: r in db.requests ==> next.requests[r] == db.requests[r]
    requires RequestsNamed(db, next.requests[rid].name, next.requests[rid].environment) == {}
    ensures NamesUnique(next)
  {
    forall r | r in db.requests ensures r in next.requests && !SameName(next.requests[r], next.requests[rid]) {
      assert r in next.requests.Keys;
      assert r !in RequestsNamed(db, next.requests[rid].name, next.requests[rid].environment);
    }
    forall r | r in next.requests ensures r == rid || r in db.requests {
      assert r in next.requests.Keys;
    }
  }

  /** From db to next the stored requests keep name and environment, and one that is still
      pending is as it was. */
  ghost predicate SameRequests(db: Db, next: Db) {
    && next.requests.Keys == db.requests.Keys
    && forall r :: r in db.requests ==>
         && next.requests[r].name == db.requests[r].name && next.requests[r].environment == db.requests[r].environment
         && (next.requests[r].status == Pending ==> next.requests[r] == db.requests[r])
  }

  lemma SameRequestsKeepNames(db: Db, next: Db)
    requires NamesUnique(db) && SameRequests(db, next)
    ensures NamesUnique(next)
  {
    forall r | r in next.requests ensures r in db.requests.Keys {
    }
  }

  lemma OneRequestChanges(db: Db, next: Db, rid: Id)
    requires rid in db.requests && next.requests.Keys == db.requests.Keys
    requires forall r :: r in db.requests && r != rid ==> next.requests[r] == db.requests[r]
    requires next.requests[rid].name == db.requests[rid].name
    requires next.requests[rid].environment == db.requests[rid].environment
    requires next.requests[rid].status == Pending ==> next.requests[rid] == db.requests[rid]
    ensures SameRequests(db, next)
  {
  }

  lemma ApprovalSameRequests(z: Zone, db: Db, rid: Id, actor: string, now: Instant, f: Faults, seed: seq<Row>)
    requires rid in db.requests && db.requests[rid].status == Pending
    ensures SameRequests(db, DecideAndProvision(z, db, rid, actor, now, f, seed).0)
  {
    hide ProvisionOutcome, SameRequests;
    OneRequestChanges(db, DecideAndProvision(z, db, rid, actor, now, f, seed).0, rid);
  }

  lemma {:induction false} ReapSameRequests(db: Db, ids: seq<Id>, now: Instant, refusing: set<Id>, unwritable: set<Id>)
    ensures ReapStep(db, ids, now, refusing, unwritable).0.requests == db.requests
    decreases |ids|
  {
    if ids != [] {
      if ids[0] in db.instances && Due(db.instances[ids[0]], now) {
        var next := RevokeStep(db, ids[0], now, ids[0] in refusing, ids[0] in unwritable).0;
        assert next.requests == db.requests;
        hide RevokeStep;
        ReapSameRequests(next, ids[1..], now, refusing, unwritable);
      } else {
        ReapSameRequests(db, ids[1..], now, refusing, unwritable);
      }
    }
  }

  lemma SelfSameRequests(db: Db, next: Db)
    requires next.requests == db.requests
    ensures SameRequests(db, next)
  {
  }

  lemma RejectionSameRequests(db: Db, name: string, environment: string, actor: string, reason: string, f: bool)
    ensures SameRequests(db, RejectStep(db, name, environment, actor, reason, f).0)
  {
    hide FindRequest, SameRequests;
    var next := RejectStep(db, name, environment, actor, reason, f).0;
    var found := FindRequest(db, name, if environment == "" then "dev" else environment);
    if found.Some? && db.requests[found.value].status == Pending && !f {
      OneRequestChanges(db, next, found.value);
    } else {
      SelfSameRequests(db, next);
    }
  }

  lemma ApproveSameRequests(z: Zone, db: Db, name: string, environment: string, actor: string, now: Instant,
                            f: Faults, seed: seq<Row>)
    ensures SameRequests(db, ApproveStep(z, db, name, environment, actor, now, f, seed).0)
  {
    hide FindRequest, SameRequests, DecideAndProvision;
    var found := FindRequest(db, name, if environment == "" then "dev" else environment);
    if found.Some? && db.requests[found.value].status == Pending && !f.decide {
      ApprovalSameRequests(z, db, found.value, actor, now, f, seed);
    } else {
      SelfSameRequests(db, db);
    }
  }

  lemma OthersSameRequests(z: Zone, db: Db, e: Event)
    requires !e.Create? && !e.Approve? && !e.Reject?
    ensures Step(z, db, e).requests == db.requests
  {
    hide ReapStep, FindProvider, KeptUsage, KeptQuotas, InstancesOf, ServicesOf, Live;
    match e
    case Reap(ids, now, p, w) => ReapSameRequests(db, ids, now, p, w);
    case _ =>
  }

  lemma StepSameRequests(z: Zone, db: Db, e: Event)
    requires !e.Create?
    ensures SameRequests(db, Step(z, db, e))
  {
    hide SameRequests, ApproveStep, RejectStep;
    if e.Approve? {
      ApproveSameRequests(z, db, e.reqName, e.environment, e.actor, e.at, e.faults, e.seed);
    } else if e.Reject? {
      RejectionSameRequests(db, e.rejName, e.rejEnvironment, e.rejector, e.reason, e.decideFails);
    } else {
      OthersSameRequests(z, db, e);
      hide Step;
      SelfSameRequests(db, Step(z, db, e));
    }
  }

  /** While a request stays pending nothing about it changes, and no second one takes its
      name. */
  lemma {:induction false} PendingStays(z: Zone, db: Db, events: seq<Event>, rid: Id)
    requires Consistent(db) && NamesUnique(db) && rid in db.requests
    ensures NamesUnique(Run(z, db, events)) && rid in Run(z, db, events).requests
    ensures Run(z, db, events).requests[rid].status == Pending ==> Run(z, db, events).requests[rid] == db.requests[rid]
    decreases |events|
  {
    hide Step, NamesUnique, Consistent;
    if events != [] {
      var next := Step(z, db, events[0]);
      StepConsistent(z, db, events[0]);
      PendingStep(z, db, events[0], rid);
      PendingStays(z, next, events[1..], rid);
      if next.requests[rid].status != Pending {
        hide Evolves;
        RunKeepsDecision(z, next, events[1..], rid);
      }
    }
  }

  lemma PendingStep(z: Zone, db: Db, e: Event, rid: Id)
    requires Consistent(db) && NamesUnique(db) && rid in db.requests
    ensures NamesUnique(Step(z, db, e)) && rid in Step(z, db, e).requests
    ensures Step(z, db, e).requests[rid].status == Pending ==> Step(z, db, e).requests[rid] == db.requests[rid]
  {
    if e.Create? {
      CreationKeepsNames(z, db, e);
      CreationStores(z, db, e.name, e.requester, e.spec, e.tenant, e.now, e.insertFails);
      hide CreateStep, Consistent, NamesUnique, SaysWhatWasAsked, NothingAgainst, NamesService;
      assert rid in db.requests.Keys;
    } else {
      StepSameRequests(z, db, e);
      hide Consistent, Step;
      SameRequestsKeepNames(db, Step(z, db, e));
      hide NamesUnique;
      assert rid in db.requests.Keys;
    }
  }

  lemma RunKeepsDecision(z: Zone, db: Db, events: seq<Event>, rid: Id)
    requires Consistent(db) && rid in db.requests && db.requests[rid].status != Pending
    ensures rid in Run(z, db, events).requests && Run(z, db, events).requests[rid] == db.requests[rid]
  {
    hide Run, Consistent;
    RunEvolves(z, db, events);
  }

  // ----------------------------------------------------------------------- end to end

  /** The instance is the access that was asked for: its service answers to the key given,
      and owner, workspace, tenant and end are those of the call, the defaults filling what
      the call left open. */
  ghost predicate GrantsWhatWasAsked(inst: Instance, service: Lifecycle.Service, requester: string, spec: Spec,
                                     tenant: Option<Id>, asked: Instant) {
    && inst.status == Active && inst.tenant == tenant
    && inst.owner == (if spec.owner != "" then spec.owner else if requester != "" then requester else "unknown")
    && inst.workspace == (if spec.workspace != "" then spec.workspace else "dev")
    && match spec.expiry
       case At(t) => inst.expiresAt == Some(t)
       case Unset =>
         inst.expiresAt == if service.defaultDays > 0 then Some(asked + service.defaultDays * 86400) else None
       case Malformed => false
  }

  /** Create, let anything happen that leaves the request pending, approve with success: the
      one new instance is for that request and is the access that was asked for. */
  lemma ApprovedAsAsked(z: Zone, db: Db, name: string, requester: string, spec: Spec, tenant: Option<Id>,
                        asked: Instant, events: seq<Event>, actor: string, now: Instant, f: Faults, seed: seq<Row>)
    requires Consistent(db) && NamesUnique(db)
    ensures var (stored, err) := CreateStep(z, db, name, requester, spec, tenant, asked, false);
            var later := Run(z, stored, events);
            var rid := db.nextId;
            err.None? && rid in later.requests && later.requests[rid].status == Pending ==>
              var (last, refused) := ApproveStep(z, later, name, "dev", actor, now, f, seed);
              refused.None? ==>
                && last.instances.Keys == later.instances.Keys + {later.nextId}
                && var inst := last.instances[later.nextId];
                   && inst.request == rid && inst.service in later.services
                   && (spec.service.ById? ==> Some(inst.service) == spec.service.id)
                   && GrantsWhatWasAsked(inst, later.services[inst.service], requester, spec, tenant, asked)
  {
    var (stored, err) := CreateStep(z, db, name, requester, spec, tenant, asked, false);
    var rid := db.nextId;
    CreationStores(z, db, name, requester, spec, tenant, asked, false);
    var create := Create(name, requester, spec, tenant, asked, false);
    StepConsistent(z, db, create);
    CreationKeepsNames(z, db, create);
    assert Step(z, db, create) == stored;
    hide CreateStep, Consistent, NamesUnique, NothingAgainst, Run, Step, ApproveStep, GrantsWhatWasAsked, Governed;
    if err.None? {
      EveryRunIsConsistent(z, stored, events);
      PendingStays(z, stored, events, rid);
      var later := Run(z, stored, events);
      if later.requests[rid].status == Pending && ApproveStep(z, later, name, "dev", actor, now, f, seed).1.None? {
        ApprovalOfName(z, later, rid, name, actor, now, f, seed);
        AsAsked(z, later, ApproveStep(z, later, name, "dev", actor, now, f, seed).0.instances[later.nextId],
                requester, spec, tenant, asked, now);
      }
    }
  }

  lemma ApprovalOfName(z: Zone, db: Db, rid: Id, name: string, actor: string, now: Instant, f: Faults, seed: seq<Row>)
    requires Consistent(db) && NamesUnique(db) && rid in db.requests && db.requests[rid].status == Pending
    requires db.requests[rid].name == name && db.requests[rid].environment == "dev"
    requires ApproveStep(z, db, name, "dev", actor, now, f, seed).1.None?
    ensures var last := ApproveStep(z, db, name, "dev", actor, now, f, seed).0;
            && last.instances.Keys == db.instances.Keys + {db.nextId}
            && last.instances[db.nextId].request == rid && Governed(z, db, last.instances[db.nextId], now)
  {
    hide Consistent, DecideAndProvision, Governed;
    var found := FindRequest(db, name, "dev");
    assert rid in RequestsNamed(db, name, "dev");
    assert found == Some(rid);
    ApprovalIsGoverned(z, db, rid, actor, now, f, seed);
  }

  lemma AsAsked(z: Zone, db: Db, inst: Instance, requester: string, spec: Spec, tenant: Option<Id>, asked: Instant,
                now: Instant)
    requires Governed(z, db, inst, now)
    requires var req := db.requests[inst.request];
             && req.spec.Some? && req.tenant == tenant && req.requester == requester && req.createdAt == asked
             && req.environment == "dev" && req.spec.value.expiry == spec.expiry
             && req.spec.value.workspace == spec.workspace
             && req.spec.value.owner == (if spec.owner != "" then spec.owner else requester)
    ensures GrantsWhatWasAsked(inst, db.services[inst.service], requester, spec, tenant, asked)
    ensures db.requests[inst.request].spec.value.service.ById? ==>
              Some(inst.service) == db.requests[inst.request].spec.value.service.id
  {
    hide Blocks, TablesOf;
  }

  // --------------------------------------------------------------------- what decisions do

  /** Rejecting decides exactly the pending request of that name, against it, with the name
      and the reason given, and touches nothing else. */
  lemma RejectionDecides(db: Db, name: string, environment: string, actor: string, reason: string, f: bool)
    ensures var (next, err) := RejectStep(db, name, environment, actor, reason, f);
            if err.Some? then next == db
            else exists rid :: rid in db.requests && db.requests[rid].status == Pending && db.requests[rid].name == name
                   && db.requests[rid].environment == (if environment == "" then "dev" else environment)
                   && next == db.(requests := db.requests[rid :=
                        db.requests[rid].(status := RequestStatus.Rejected, decidedBy := actor, reason := reason)])
  {
    var found := FindRequest(db, name, if environment == "" then "dev" else environment);
    if found.Some? {
      assert found.value in RequestsNamed(db, name, if environment == "" then "dev" else environment);
    }
  }

  /** Approving a pending request records who decided; it ends completed, naming the instance,
      if access was granted and recorded, and failed otherwise, unless the outcome itself could
      not be written. */
  lemma ApprovalDecides(z: Zone, db: Db, rid: Id, actor: string, now: Instant, f: Faults, seed: seq<Row>)
    requires rid in db.requests && db.requests[rid].status == Pending
    ensures var (next, err) := DecideAndProvision(z, db, rid, actor, now, f, seed);
            && rid in next.requests
            && var req := next.requests[rid];
               && req.decidedBy == actor && req.reason == "" && req.spec == db.requests[rid].spec
               && (f.record ==> req.status == Approved)
               && (!f.record && err.None? ==> req.status == Completed && req.ref == Instanced(db.nextId))
               && (!f.record && err.Some? ==> req.status == RequestStatus.Failed && req.ref == Named(req.name))
               && (db.requests[rid].kind != "ai_service" ==> err == Some(UnknownKind))
  {
    hide ProvisionOutcome;
  }

  /** A revocation succeeds exactly on live access whose provider call and write work; the
      instance then reads revoked at that time, and nothing else changes. Without the write
      only the provider's confirmation remains. */
  lemma RevocationExact(db: Db, id: Id, now: Instant, providerFails: bool, writeFails: bool)
    requires Consistent(db)
    ensures var (next, err) := RevokeStep(db, id, now, providerFails, writeFails);
            var live := id in db.instances
                        && (db.instances[id].status == Active || db.instances[id].status == Suspended);
            && (err.None? <==> live && !providerFails && !writeFails)
            && (!live || providerFails ==> next == db)
            && (live && !providerFails ==>
                  var row := db.instances[id].(status := InstanceStatus.Revoked, revokedAt := Some(now));
                  next == db.(revokedUpstream := db.revokedUpstream + {id},
                              instances := if writeFails then db.instances else db.instances[id := row]))
  {
    hide Numbered, OneInstancePerRequest, GrantsRecorded;
  }

  /** Deleting a provider succeeds only while none of its access is live. Then the provider,
      its services, their instances and quotas and all its usage are gone, and everything
      else is as it was. */
  lemma DeletionExact(db: Db, name: string)
    requires Consistent(db)
    ensures var (next, err) := DeleteProviderStep(db, name, false, false);
            err.None? ==>
              exists pid :: pid in db.providers && db.providers[pid].name == name && OnlyProviderGone(db, next, pid)
    ensures var (next, err) := DeleteProviderStep(db, name, false, false);
            err.Some? ==> next == db
  {
    hide FindProvider, OnlyProviderGone, Numbered, OneInstancePerRequest, InstancesResolve, GrantsRecorded,
         KeptUsage, KeptQuotas;
    var found := FindProvider(db, name);
    if found.Some? && DeleteProviderStep(db, name, false, false).1.None? {
      DeletedProvider(db, found.value, DeleteProviderStep(db, name, false, false).0);
    }
  }

  lemma DeletedProvider(db: Db, pid: Id, next: Db)
    requires InstancesResolve(db) && pid in db.providers
    requires var gone := InstancesOf(db, pid);
             && (forall i :: i in gone ==> !Live(db.instances[i]))
             && next == db.(instances := db.instances - gone, providers := db.providers - {pid},
                            services := db.services - ServicesOf(db, pid),
                            quotas := KeptQuotas(db.quotas, ServicesOf(db, pid)),
                            usage := KeptUsage(KeptUsage(db.usage, None, gone), Some(pid), {}))
    ensures OnlyProviderGone(db, next, pid)
  {
    var gone := InstancesOf(db, pid);
    UsageWithout(db.usage, None, gone);
    UsageWithout(KeptUsage(db.usage, None, gone), Some(pid), {});
    hide KeptUsage, KeptQuotas;
    assert forall i :: i in gone <==> i in db.instances && BelongsTo(db, db.instances[i].service, pid);
    hide InstancesOf;
    assert forall s :: s in ServicesOf(db, pid) <==> BelongsTo(db, s, pid);
  }

  predicate BelongsTo(db: Db, service: Id, pid: Id) {
    service in db.services && db.services[service].provider == pid
  }

  predicate ConcernsProvider(db: Db, r: Row, pid: Id) {
    || r.providerId == pid
    || (r.instance.Some? && r.instance.value in db.instances
        && BelongsTo(db, db.instances[r.instance.value].service, pid))
  }

  ghost predicate OnlyProviderGone(db: Db, next: Db, pid: Id) {
    && next.providers == db.providers - {pid}
    && (forall s :: s in next.services <==> s in db.services && !BelongsTo(db, s, pid))
    && (forall s :: s in next.services ==> next.services[s] == db.services[s])
    && (forall i :: i in next.instances <==> i in db.instances && !BelongsTo(db, db.instances[i].service, pid))
    && (forall i :: i in next.instances ==> next.instances[i] == db.instances[i])
    && (forall i :: i in db.instances && BelongsTo(db, db.instances[i].service, pid) ==>
          db.instances[i].status != Active && db.instances[i].status != Suspended)
    && (forall q :: q in next.quotas <==>
          q in db.quotas && !(q.serviceId.Some? && BelongsTo(db, q.serviceId.value, pid)))
    && (forall r :: r in next.usage <==> r in db.usage && !ConcernsProvider(db, r, pid))
    && next == db.(providers := next.providers, services := next.services, instances := next.instances,
                   quotas := next.quotas, usage := next.usage)
  }

  lemma {:induction false} UsageWithout(usage: seq<Row>, pid: Option<Id>, instances: set<Id>)
    ensures forall r :: r in KeptUsage(usage, pid, instances) <==>
              r in usage && pid != Some(r.providerId) && !(r.instance.Some? && r.instance.value in instances)
  {
    if usage != [] {
      UsageWithout(usage[1..], pid, instances);
      assert usage == [usage[0]] + usage[1..];
    }
  }
}
