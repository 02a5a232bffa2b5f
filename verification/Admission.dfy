/** Access comes into being in one way only: by approving a pending request while the
    governance gate is open for exactly the access that results. */
module Admission {
  import opened Text
  import opened Ids
  import opened Calendar
  import opened Ledger
  import opened Governance
  import opened Lifecycle
  import opened LifecycleRuns

  /** When the access a request asks for should end: at the time the request names, else
      after the service's default number of days of 24 hours, counted from the request, else
      never. */
  predicate EndsAsPromised(inst: Instance, req: Request, defaultDays: int) {
    req.spec.Some? &&
    match req.spec.value.expiry
    case Malformed => false
    case At(t) => inst.expiresAt == Some(t)
    case Unset =>
      if defaultDays > 0 then inst.expiresAt == Some(req.createdAt + defaultDays * 86400) else inst.expiresAt.None?
  }

  /** The owner is whom the spec names, or else whoever asked, or else unknown; the workspace
      is the spec's, or else the request's environment; the tenant is the request's. */
  predicate GoesTo(inst: Instance, req: Request) {
    && req.spec.Some?
    && inst.owner == (if req.spec.value.owner != "" then req.spec.value.owner
                      else if req.requester != "" then req.requester else "unknown")
    && inst.workspace == (if req.spec.value.workspace != "" then req.spec.value.workspace
                          else if req.environment != "" then req.environment else "default")
    && inst.tenant == req.tenant
  }

  /** The service is the one the spec names, by id or by slug. */
  predicate IsFor(inst: Instance, service: Lifecycle.Service, req: Request) {
    req.spec.Some? &&
    match req.spec.value.service
    case ById(id) => id == Some(inst.service)
    case BySlug(slug) => service.slug == slug
    case Unnamed => false
  }

  /** What the gate is told about access to a service. */
  function AccessContext(db: Db, service: Id, owner: string, workspace: string, tenant: Option<Id>): RequestContext
    requires service in db.services && db.services[service].provider in db.providers
  {
    RequestContext(serviceId := service,
                   serviceSlug := db.services[service].slug, serviceCategory := db.services[service].category,
                   providerName := db.providers[db.services[service].provider].name,
                   providerType := db.providers[db.services[service].provider].kind,
                   owner := owner, workspace := workspace, tenant := tenant)
  }

  ghost predicate Governed(z: Zone, db: Db, inst: Instance, now: Instant) {
    && inst.request in db.requests && db.requests[inst.request].status == Pending
    && inst.service in db.services && db.services[inst.service].provider in db.providers
    && inst.status == Active && inst.createdAt == now && inst.revokedAt.None?
    && IsFor(inst, db.services[inst.service], db.requests[inst.request])
    && GoesTo(inst, db.requests[inst.request])
    && EndsAsPromised(inst, db.requests[inst.request], db.services[inst.service].defaultDays)
    && !Blocks(z, None, TablesOf(db), AccessContext(db, inst.service, inst.owner, inst.workspace, inst.tenant), now)
  }

  lemma ProvisionedIsGoverned(z: Zone, db: Db, rid: Id, actor: string, now: Instant, f: Faults, seed: seq<Row>)
    requires rid in db.requests && db.requests[rid].status == Pending
    ensures var decided := Decided(db, rid, actor);
            var (after, err) := ProvisionStep(z, decided, rid, now, f, seed);
            if err.Some? then after.instances == db.instances
            else after.instances.Keys == db.instances.Keys + {db.nextId}
                 && after.instances[db.nextId].request == rid && Governed(z, db, after.instances[db.nextId], now)
  {
    hide HardReasons, TablesOf, Blocks;
    var decided := WithRequest(db, rid, db.requests[rid].(status := Approved, decidedBy := actor, reason := ""));
    var (after, err) := ProvisionStep(z, decided, rid, now, f, seed);
    if err.None? {
      var inst := after.instances[db.nextId];
      SameTablesForGate(db, decided);
      VerdictIsExact(z, None, TablesOf(db), ContextOf(db, inst.service, inst.owner, inst.workspace, inst.tenant), now);
    }
  }

  lemma SameTablesForGate(db: Db, decided: Db)
    requires decided == db.(requests := decided.requests)
    ensures TablesOf(decided) == TablesOf(db)
  {
  }

  lemma ApprovalIsGoverned(z: Zone, db: Db, rid: Id, actor: string, now: Instant, f: Faults, seed: seq<Row>)
    requires rid in db.requests && db.requests[rid].status == Pending
    ensures var (next, err) := DecideAndProvision(z, db, rid, actor, now, f, seed);
            if err.Some? then next.instances == db.instances
            else next.instances.Keys == db.instances.Keys + {db.nextId}
                 && next.instances[db.nextId].request == rid && Governed(z, db, next.instances[db.nextId], now)
  {
    hide ProvisionStep, Governed;
    ProvisionedIsGoverned(z, db, rid, actor, now, f, seed);
  }

  /** Every call but an approval leaves no instance that was not there before. */
  lemma OthersCreateNothing(z: Zone, db: Db, e: Event)
    requires Consistent(db) && !e.Approve?
    ensures Step(z, db, e).instances.Keys <= db.instances.Keys
  {
    hide Consistent, CreateStep, RevokeStep, RecertifyStep, ReapStep, DeleteProviderStep, Evolves;
    match e
    case Create(_, _, _, _, _, _) => CreationLeavesInstances(z, db, e);
    case Revoke(id, now, p, w) => RevokeEvolves(db, id, now, p, w);
    case Recertify(id, days, now, w) => RecertifyEvolves(db, id, days, now, w);
    case Reap(ids, now, p, w) => ReapEvolves(db, ids, now, p, w);
    case DeleteProvider(n, c, d) => DeletionOnlyRemoves(db, n, c, d);
    case _ =>
  }

  lemma CreationLeavesInstances(z: Zone, db: Db, e: Event)
    requires e.Create?
    ensures Step(z, db, e).instances == db.instances
  {
    hide HardReasons, LookupService, TablesOf;
  }

  lemma DeletionOnlyRemoves(db: Db, name: string, clearFails: bool, deleteFails: bool)
    ensures DeleteProviderStep(db, name, clearFails, deleteFails).0.instances.Keys <= db.instances.Keys
  {
    hide KeptUsage, KeptQuotas, FindProvider;
  }

  /** An instance that a call brings into being comes from approving its pending request,
      and no policy, seat quota or budget stood against that very access at that time. */
  lemma NewAccessIsGoverned(z: Zone, db: Db, e: Event, i: Id)
    requires Consistent(db)
    ensures i in Step(z, db, e).instances && i !in db.instances ==>
              e.Approve? && Governed(z, db, Step(z, db, e).instances[i], e.at)
  {
    hide Consistent, DecideAndProvision, Governed;
    if e.Approve? {
      var found := FindRequest(db, e.reqName, if e.environment == "" then "dev" else e.environment);
      if found.Some? && db.requests[found.value].status == Pending && !e.faults.decide {
        ApprovalIsGoverned(z, db, found.value, e.actor, e.at, e.faults, e.seed);
        assert i in Step(z, db, e).instances ==> i in Step(z, db, e).instances.Keys;
      }
    } else {
      OthersCreateNothing(z, db, e);
    }
  }

  /** From db to next one pending request of this name became one new, governed instance:
      decided by the actor, completed unless that could not be recorded, and no other request
      touched. */
  ghost predicate OneApproved(z: Zone, db: Db, next: Db, name: string, actor: string, now: Instant, recordFails: bool) {
    exists rid :: rid in db.requests
      && db.requests[rid].name == name
      && next.instances.Keys == db.instances.Keys + {db.nextId} && next.instances[db.nextId].request == rid
      && Governed(z, db, next.instances[db.nextId], now)
      && rid in next.requests && next.requests[rid].decidedBy == actor
      && next.requests[rid].status == (if recordFails then Approved else Completed)
      && forall r :: r in db.requests && r != rid ==> r in next.requests && next.requests[r] == db.requests[r]
  }

  /** An approval that succeeds takes exactly one pending request to one new instance. */
  lemma ApprovalCompletes(z: Zone, db: Db, name: string, environment: string, actor: string, now: Instant,
                          f: Faults, seed: seq<Row>)
    requires Consistent(db)
    ensures var (next, err) := ApproveStep(z, db, name, environment, actor, now, f, seed);
            err.None? ==> OneApproved(z, db, next, name, actor, now, f.record)
  {
    hide Consistent, ProvisionStep, Governed, FindRequest;
    if ApproveStep(z, db, name, environment, actor, now, f, seed).1.None? {
      var rid := FindRequest(db, name, if environment == "" then "dev" else environment).value;
      ApprovalIsGoverned(z, db, rid, actor, now, f, seed);
      var approved := db.requests[rid].(status := Approved, decidedBy := actor, reason := "");
      PendingHasNoInstance(db, rid);
      RequestUpdateConsistent(db, rid, approved);
      ProvisionEvolves(z, WithRequest(db, rid, approved), rid, now, f, seed);
      assert rid in RequestsNamed(db, name, if environment == "" then "dev" else environment);
    }
  }

  // ---------------------------------------------------- access granted but not recorded

  /** Requests for which the provider granted access that no instance was ever stored for. */
  function Unrecorded(db: Db): set<Id> {
    set r | r in db.grantedUpstream && InstancesEverFor(db, r) == {}
  }

  /** The call approves the pending request r, the provider grants the access, and then the
      insert fails. */
  predicate InsertFailsAfterGrant(z: Zone, db: Db, e: Event, r: Id) {
    && e.Approve? && !e.faults.decide && e.faults.insert
    && FindRequest(db, e.reqName, if e.environment == "" then "dev" else e.environment) == Some(r)
    && r in db.requests && db.requests[r].status == Pending && db.requests[r].kind == "ai_service"
    && ProvisionOutcome(z, Decided(db, r, e.actor), r, e.at, e.faults).Grant?
  }

  function Decided(db: Db, r: Id, actor: string): Db
    requires r in db.requests
  {
    WithRequest(db, r, db.requests[r].(status := Approved, decidedBy := actor, reason := ""))
  }

  lemma DecisionGrants(z: Zone, db: Db, rid: Id, actor: string, now: Instant, f: Faults, seed: seq<Row>)
    requires rid in db.requests
    ensures var next := DecideAndProvision(z, db, rid, actor, now, f, seed).0;
            if db.requests[rid].kind == "ai_service" && ProvisionOutcome(z, Decided(db, rid, actor), rid, now, f).Grant?
            then next.grantedUpstream == db.grantedUpstream + {rid}
                 && next.created == (if f.insert then db.created else db.created[db.nextId := rid])
            else next.grantedUpstream == db.grantedUpstream && next.created == db.created
  {
    hide ProvisionOutcome;
  }

  lemma UnrecordedAfter(db: Db, next: Db, rid: Id, recorded: bool, r: Id)
    requires Consistent(db) && rid !in db.grantedUpstream
    requires next.grantedUpstream == db.grantedUpstream + {rid}
    requires next.created == if recorded then db.created[db.nextId := rid] else db.created
    ensures r in Unrecorded(next) <==> r in Unrecorded(db) || (r == rid && !recorded)
  {
    hide Numbered, OneInstancePerRequest, InstancesResolve;
    assert forall i :: i in db.created ==> i in next.created && next.created[i] == db.created[i] by {
      NewIdUnused(db);
    }
    assert recorded ==> db.nextId in InstancesEverFor(next, rid);
    assert forall q :: q != rid ==> InstancesEverFor(next, q) == InstancesEverFor(db, q) by { NewIdUnused(db); }
    assert InstancesEverFor(db, rid) == {};
  }

  lemma NewIdUnused(db: Db)
    requires Consistent(db)
    ensures db.nextId !in db.created
  {
  }

  /** Every call but an approval grants nothing and stores no new instance. */
  lemma OthersGrantNothing(z: Zone, db: Db, e: Event)
    requires !e.Approve?
    ensures Step(z, db, e).grantedUpstream == db.grantedUpstream && Step(z, db, e).created == db.created
  {
    hide ReapStep, FindRequest, FindProvider, HardReasons, LookupService, TablesOf, KeptUsage, KeptQuotas, ContextOf;
    match e
    case Reap(ids, now, p, w) => ReapGrantsNothing(db, ids, now, p, w);
    case _ =>
  }

  lemma {:induction false} ReapGrantsNothing(db: Db, ids: seq<Id>, now: Instant, refusing: set<Id>, unwritable: set<Id>)
    ensures var last := ReapStep(db, ids, now, refusing, unwritable).0;
            last.grantedUpstream == db.grantedUpstream && last.created == db.created
    decreases |ids|
  {
    if ids != [] {
      if ids[0] in db.instances && Due(db.instances[ids[0]], now) {
        var next := RevokeStep(db, ids[0], now, ids[0] in refusing, ids[0] in unwritable).0;
        assert next.grantedUpstream == db.grantedUpstream && next.created == db.created;
        hide RevokeStep;
        ReapGrantsNothing(next, ids[1..], now, refusing, unwritable);
      } else {
        ReapGrantsNothing(db, ids[1..], now, refusing, unwritable);
      }
    }
  }

  /** A step leaves granted access unrecorded exactly if it was so before or the insert of
      this very step failed. */
  lemma StepUnrecorded(z: Zone, db: Db, e: Event, r: Id)
    requires Consistent(db)
    ensures r in Unrecorded(Step(z, db, e)) <==> r in Unrecorded(db) || InsertFailsAfterGrant(z, db, e, r)
  {
    hide Consistent, DecideAndProvision, ProvisionOutcome, FindRequest, Unrecorded;
    if e.Approve? {
      var found := FindRequest(db, e.reqName, if e.environment == "" then "dev" else e.environment);
      if found.Some? && db.requests[found.value].status == Pending && !e.faults.decide {
        DecisionUnrecorded(z, db, found.value, e.actor, e.at, e.faults, e.seed, r);
      } else {
        SameUnrecorded(db, Step(z, db, e));
      }
    } else {
      OthersGrantNothing(z, db, e);
      SameUnrecorded(db, Step(z, db, e));
    }
  }

  lemma DecisionUnrecorded(z: Zone, db: Db, rid: Id, actor: string, now: Instant, f: Faults, seed: seq<Row>, r: Id)
    requires Consistent(db) && rid in db.requests && db.requests[rid].status == Pending
    ensures r in Unrecorded(DecideAndProvision(z, db, rid, actor, now, f, seed).0)
       <==> r in Unrecorded(db) || (r == rid && f.insert && db.requests[rid].kind == "ai_service"
              && ProvisionOutcome(z, Decided(db, rid, actor), rid, now, f).Grant?)
  {
    var next := DecideAndProvision(z, db, rid, actor, now, f, seed).0;
    PendingHasNoInstance(db, rid);
    DecisionGrants(z, db, rid, actor, now, f, seed);
    hide Consistent, DecideAndProvision, ProvisionOutcome, Unrecorded, Decided;
    if db.requests[rid].kind == "ai_service" && ProvisionOutcome(z, Decided(db, rid, actor), rid, now, f).Grant? {
      UnrecordedAfter(db, next, rid, !f.insert, r);
    } else {
      SameUnrecorded(db, next);
    }
  }

  lemma SameUnrecorded(db: Db, next: Db)
    requires next.grantedUpstream == db.grantedUpstream && next.created == db.created
    ensures Unrecorded(next) == Unrecorded(db)
  {
    assert forall r :: InstancesEverFor(next, r) == InstancesEverFor(db, r);
  }

  /** At some step of the run the insert for r failed after the provider had granted. */
  predicate SomeInsertFailed(z: Zone, db: Db, events: seq<Event>, r: Id)
    decreases |events|
  {
    events != [] &&
    (InsertFailsAfterGrant(z, db, events[0], r) || SomeInsertFailed(z, Step(z, db, events[0]), events[1..], r))
  }

  lemma {:induction false} RunUnrecorded(z: Zone, db: Db, events: seq<Event>, r: Id)
    requires Consistent(db)
    ensures r in Unrecorded(Run(z, db, events)) <==> r in Unrecorded(db) || SomeInsertFailed(z, db, events, r)
    decreases |events|
  {
    hide Consistent, Step, Unrecorded, InsertFailsAfterGrant;
    if events != [] {
      StepConsistent(z, db, events[0]);
      StepUnrecorded(z, db, events[0], r);
      RunUnrecorded(z, Step(z, db, events[0]), events[1..], r);
    }
  }

  /** In every state reachable from a fresh database: whatever the provider granted has its
      instance on record exactly unless the insert for it failed after the grant; and no
      instance is on record that the provider did not grant. */
  lemma GrantsHaveInstances(z: Zone, quotas: seq<Quota>, events: seq<Event>, r: Id)
    ensures var db := Run(z, Empty(quotas), events);
            && (r in db.grantedUpstream ==>
                 (InstancesEverFor(db, r) == {} <==> SomeInsertFailed(z, Empty(quotas), events, r)))
            && (InstancesEverFor(db, r) != {} ==> r in db.grantedUpstream)
  {
    FreshDatabaseConsistent(z, quotas, events);
    FreshDatabaseConsistent(z, quotas, []);
    assert Unrecorded(Empty(quotas)) == {};
    RunUnrecorded(z, Empty(quotas), events, r);
    hide Run, SomeInsertFailed, Numbered, OneInstancePerRequest, InstancesResolve;
  }
}
