/** The access lifecycle: requests, approvals and the instances they create, revocation,
    recertification, expiry and the removal of providers, over the tables they share. */
module Lifecycle {
  import opened Text
  import opened Ids
  import opened Calendar
  import opened Ledger
  import opened Governance

  const DAY: int := 86400

  datatype RequestStatus = Pending | Approved | Rejected | Completed | Failed

  datatype ResourceRef = NoRef | Named(name: string) | Instanced(id: Id)

  /** How a request names its service; a malformed id is ById(None). */
  datatype ServiceKey = ById(id: Option<Id>) | BySlug(slug: string) | Unnamed

  datatype Expiry = Unset | At(t: Instant) | Malformed

  datatype Spec = Spec(service: ServiceKey, owner: string, workspace: string, expiry: Expiry)

  /** The spec is None when the stored JSON does not decode. */
  datatype Request = Request(name: string, environment: string, requester: string, kind: string,
                             spec: Option<Spec>, status: RequestStatus, ref: ResourceRef,
                             decidedBy: string, reason: string, tenant: Option<Id>, createdAt: Instant)

  datatype InstanceStatus = Active | Suspended | Revoked

  datatype Instance = Instance(service: Id, request: Id, owner: string, workspace: string, tenant: Option<Id>,
                               status: InstanceStatus, expiresAt: Option<Instant>, createdAt: Instant,
                               revokedAt: Option<Instant>)

  datatype Service = Service(provider: Id, slug: string, category: string, defaultDays: int)

  datatype Provider = Provider(name: string, kind: string)

  /** The database, with three facts about its past: which instance was created for which
      request, for which requests the provider granted access, and for which instances it
      confirmed a revocation. */
  datatype Db = Db(
    providers: map<Id, Provider>, services: map<Id, Service>,
    requests: map<Id, Request>, instances: map<Id, Instance>,
    policies: seq<Policy>, quotas: seq<Quota>, budgets: seq<Budget>, usage: seq<Row>,
    nextId: Id, created: map<Id, Id>, grantedUpstream: set<Id>, revokedUpstream: set<Id>)

  datatype Error =
    | NotFound | NotPending | DatabaseError | UnknownKind | BadSpec | UnknownService
    | UnregisteredType | BadExpiry | Blocked(reasons: seq<Reason>) | ProviderError
    | NotLive | HasLiveInstances | Duplicate | Incomplete

  predicate Live(i: Instance) {
    i.status == Active || i.status == Suspended
  }

  // ------------------------------------------------------------------------ lookups

  function RequestsNamed(db: Db, name: string, environment: string): set<Id> {
    set id | id in db.requests && db.requests[id].name == name && db.requests[id].environment == environment
  }

  function FindRequest(db: Db, name: string, environment: string): (r: Option<Id>)
    ensures r.Some? ==> r.value in RequestsNamed(db, name, environment)
    ensures r.None? ==> RequestsNamed(db, name, environment) == {}
  {
    var found := RequestsNamed(db, name, environment);
    if found == {} then None else Some(Pick(found))
  }

  function Pick(ids: set<Id>): (id: Id)
    requires ids != {}
    ensures id in ids && forall j :: j in ids ==> id <= j
  {
    LeastExists(ids);
    var id :| id in ids && forall j :: j in ids ==> id <= j;
    id
  }

  lemma {:induction false} Least(ids: set<Id>) returns (m: Id)
    requires ids != {}
    ensures m in ids && forall j :: j in ids ==> m <= j
    decreases |ids|
  {
    var k :| k in ids;
    var rest := ids - {k};
    m := k;
    if rest != {} {
      var n := Least(rest);
      if n < k { m := n; }
    }
    assert forall j :: j in ids ==> j == k || j in rest;
  }

  lemma LeastExists(ids: set<Id>)
    requires ids != {}
    ensures exists m :: m in ids && forall j :: j in ids ==> m <= j
  {
    var m := Least(ids);
  }

  function LookupService(db: Db, key: ServiceKey): (r: Option<Id>)
    ensures r.Some? ==> r.value in db.services && db.services[r.value].provider in db.providers
  {
    match key
    case Unnamed => None
    case ById(None) => None
    case ById(Some(id)) => if id in db.services && db.services[id].provider in db.providers then Some(id) else None
    case BySlug(slug) =>
      var found := set id | id in db.services && db.services[id].slug == slug
                            && db.services[id].provider in db.providers;
      if found == {} then None else Some(Pick(found))
  }

  function FindProvider(db: Db, name: string): (r: Option<Id>)
    ensures r.Some? ==> r.value in db.providers && db.providers[r.value].name == name
  {
    var found := set id | id in db.providers && db.providers[id].name == name;
    if found == {} then None else Some(Pick(found))
  }

  /** The instance list as the governance gate reads it. */
  function SeatsBelow(instances: map<Id, Instance>, n: nat): seq<Seat> {
    if n == 0 then []
    else
      var rest := SeatsBelow(instances, n - 1);
      if n - 1 in instances
      then [Seat(instances[n - 1].service, instances[n - 1].status == Active, instances[n - 1].tenant)] + rest
      else rest
  }

  function TablesOf(db: Db): Tables {
    Tables(db.policies, db.quotas, SeatsBelow(db.instances, db.nextId), db.budgets, db.usage)
  }

  function FirstNonEmpty(a: string, b: string, c: string): string {
    if a != "" then a else if b != "" then b else c
  }

  // ------------------------------------------------------- requests and approval

  /** What goes wrong outside during a call: each flag makes one step fail. */
  datatype Faults = Faults(decide: bool, registry: bool, provider: bool, insert: bool, record: bool)

  /** When access ends: the requested time, else the service's default, else never. */
  function ExpiresAt(e: Expiry, createdAt: Instant, days: int): Option<Option<Instant>> {
    match e
    case Malformed => None
    case At(t) => Some(Some(t))
    case Unset => if days <= 0 then Some(None) else Some(Some(createdAt + days * DAY))
  }

  function ContextOf(db: Db, service: Id, owner: string, workspace: string, tenant: Option<Id>): RequestContext
    requires service in db.services && db.services[service].provider in db.providers
  {
    var s := db.services[service];
    var p := db.providers[s.provider];
    RequestContext(service, s.slug, s.category, p.name, p.kind, owner, workspace, tenant)
  }

  /** CreateAIRequest: the gate runs first, then the request is stored as pending. */
  function CreateStep(z: Zone, db: Db, name: string, requester: string, spec: Spec, tenant: Option<Id>,
                      now: Instant, insertFails: bool): (r: (Db, Option<Error>))
  {
    if Blank(name) || spec.service == Unnamed then (db, Some(Incomplete))
    else if spec.expiry == Malformed then (db, Some(BadExpiry))
    else
      match LookupService(db, spec.service)
      case None => (db, Some(UnknownService))
      case Some(sid) =>
        var owner := FirstNonEmpty(spec.owner, requester, "");
        var reasons := HardReasons(z, None, TablesOf(db), ContextOf(db, sid, owner, spec.workspace, tenant), now);
        if reasons != [] then (db, Some(Blocked(reasons)))
        else if insertFails then (db, Some(DatabaseError))
        else if RequestsNamed(db, name, "dev") != {} then (db, Some(Duplicate))
        else
          var stored := Spec(ById(Some(sid)), owner, spec.workspace, spec.expiry);
          var req := Request(name, "dev", requester, "ai_service", Some(stored), Pending, NoRef, "", "", tenant, now);
          (db.(requests := db.requests[db.nextId := req], nextId := db.nextId + 1), None)
  }

  /** What provisioning a request comes to before the database is written: a refusal, or
      access granted by the provider and the row that is to record it. */
  datatype Outcome = Refusal(error: Error) | Grant(inst: Instance)

  function ProvisionOutcome(z: Zone, db: Db, rid: Id, now: Instant, f: Faults): Outcome
    requires rid in db.requests
  {
    var req := db.requests[rid];
    if req.spec.None? then Refusal(BadSpec)
    else
      var spec := req.spec.value;
      match LookupService(db, spec.service)
      case None => Refusal(UnknownService)
      case Some(sid) =>
        if f.registry then Refusal(UnregisteredType)
        else
          var owner := FirstNonEmpty(spec.owner, req.requester, "unknown");
          var workspace := FirstNonEmpty(spec.workspace, req.environment, "default");
          match ExpiresAt(spec.expiry, req.createdAt, db.services[sid].defaultDays)
          case None => Refusal(BadExpiry)
          case Some(expires) =>
            var reasons := HardReasons(z, None, TablesOf(db), ContextOf(db, sid, owner, workspace, req.tenant), now);
            if reasons != [] then Refusal(Blocked(reasons))
            else if f.provider then Refusal(ProviderError)
            else Grant(Instance(sid, rid, owner, workspace, req.tenant, Active, expires, now, None))
  }

  /** Inserting the row for granted access. If the insert fails the access stands upstream
      without a row. The seed is the usage the provider reports for the new grant. */
  function RecordOutcome(db: Db, rid: Id, outcome: Outcome, insertFails: bool, seed: seq<Row>): (r: (Db, Option<Error>))
    ensures r.1.Some? ==> r.0 == db.(grantedUpstream := r.0.grantedUpstream)
  {
    match outcome
    case Refusal(error) => (db, Some(error))
    case Grant(inst) =>
      var granted := db.(grantedUpstream := db.grantedUpstream + {rid});
      if insertFails then (granted, Some(DatabaseError))
      else
        (granted.(instances := db.instances[db.nextId := inst], created := db.created[db.nextId := rid],
                  usage := db.usage + seed, nextId := db.nextId + 1), None)
  }

  /** ProvisionAIRequest: the provider grants first, the row is inserted afterwards. */
  function ProvisionStep(z: Zone, db: Db, rid: Id, now: Instant, f: Faults, seed: seq<Row>): (r: (Db, Option<Error>))
    requires rid in db.requests
    ensures r.1.Some? ==> r.0 == db.(grantedUpstream := r.0.grantedUpstream)
  {
    RecordOutcome(db, rid, ProvisionOutcome(z, db, rid, now, f), f.insert, seed)
  }

  function WithRequest(db: Db, rid: Id, req: Request): Db {
    db.(requests := db.requests[rid := req])
  }

  /** What approving request rid does once it is known to be pending: decide, provision,
      then record the outcome. The last write is best effort: if it fails the request
      stays approved. */
  function DecideAndProvision(z: Zone, db: Db, rid: Id, actor: string, now: Instant,
                              f: Faults, seed: seq<Row>): (r: (Db, Option<Error>))
    requires rid in db.requests
  {
    var req := db.requests[rid];
    var approved := req.(status := Approved, decidedBy := actor, reason := "");
    var decided := WithRequest(db, rid, approved);
    var (after, err) := if req.kind == "ai_service" then ProvisionStep(z, decided, rid, now, f, seed)
                        else (decided, Some(UnknownKind));
    var final := if err.Some? then approved.(status := Failed, ref := Named(req.name))
                 else approved.(status := Completed, ref := Instanced(decided.nextId));
    (if f.record then after else WithRequest(after, rid, final), err)
  }

  function ApproveStep(z: Zone, db: Db, name: string, environment: string, actor: string, now: Instant,
                       f: Faults, seed: seq<Row>): (r: (Db, Option<Error>))
  {
    match FindRequest(db, name, if environment == "" then "dev" else environment)
    case None => (db, Some(NotFound))
    case Some(rid) =>
      if db.requests[rid].status != Pending then (db, Some(NotPending))
      else if f.decide then (db, Some(DatabaseError))
      else DecideAndProvision(z, db, rid, actor, now, f, seed)
  }

  function RejectStep(db: Db, name: string, environment: string, actor: string, reason: string,
                      decideFails: bool): (r: (Db, Option<Error>)) {
    match FindRequest(db, name, if environment == "" then "dev" else environment)
    case None => (db, Some(NotFound))
    case Some(rid) =>
      var req := db.requests[rid];
      if req.status != Pending then (db, Some(NotPending))
      else if decideFails then (db, Some(DatabaseError))
      else (WithRequest(db, rid, req.(status := Rejected, decidedBy := actor, reason := reason)), None)
  }

  // ----------------------------------------------------------------- live instances

  /** RevokeAIInstance: the provider first, the row afterwards. */
  function RevokeStep(db: Db, id: Id, now: Instant, providerFails: bool, writeFails: bool): (r: (Db, Option<Error>)) {
    if id !in db.instances then (db, Some(NotFound))
    else
      var i := db.instances[id];
      if !Live(i) then (db, Some(NotLive))
      else if i.service !in db.services || db.services[i.service].provider !in db.providers then (db, Some(NotFound))
      else if providerFails then (db, Some(ProviderError))
      else
        var confirmed := db.(revokedUpstream := db.revokedUpstream + {id});
        if writeFails then (confirmed, Some(DatabaseError))
        else (confirmed.(instances := db.instances[id := i.(status := Revoked, revokedAt := Some(now))]), None)
  }

  function RecertifyStep(db: Db, id: Id, extendDays: int, now: Instant, writeFails: bool): (r: (Db, Option<Error>)) {
    var days := if extendDays <= 0 then 90 else extendDays;
    if id !in db.instances then (db, Some(NotFound))
    else if !Live(db.instances[id]) then (db, Some(NotLive))
    else if writeFails then (db, Some(DatabaseError))
    else (db.(instances := db.instances[id := db.instances[id].(expiresAt := Some(now + days * DAY))]), None)
  }

  /** Live access whose window has closed. */
  predicate Due(i: Instance, now: Instant) {
    Live(i) && i.expiresAt.Some? && i.expiresAt.value <= now
  }

  /** One reaper pass over a list of instances; each revocation may fail on its own. */
  function ReapStep(db: Db, ids: seq<Id>, now: Instant, providerFails: set<Id>, writeFails: set<Id>): (r: (Db, nat))
    decreases |ids|
  {
    if ids == [] then (db, 0)
    else
      var id := ids[0];
      if id in db.instances && Due(db.instances[id], now) then
        var (next, err) := RevokeStep(db, id, now, id in providerFails, id in writeFails);
        var (last, n) := ReapStep(next, ids[1..], now, providerFails, writeFails);
        (last, if err.None? then n + 1 else n)
      else ReapStep(db, ids[1..], now, providerFails, writeFails)
  }

  // ------------------------------------------------------------------------ providers

  function InstancesOf(db: Db, pid: Id): set<Id> {
    set id | id in db.instances && db.instances[id].service in db.services
           && db.services[db.instances[id].service].provider == pid
  }

  function ServicesOf(db: Db, pid: Id): set<Id> {
    set s | s in db.services && db.services[s].provider == pid
  }

  function KeptQuotas(quotas: seq<Quota>, gone: set<Id>): (r: seq<Quota>)
    ensures forall q :: q in r <==> q in quotas && !(q.serviceId.Some? && q.serviceId.value in gone)
  {
    if quotas == [] then []
    else
      var rest := KeptQuotas(quotas[1..], gone);
      if quotas[0].serviceId.Some? && quotas[0].serviceId.value in gone then rest else [quotas[0]] + rest
  }

  function KeptUsage(usage: seq<Row>, pid: Option<Id>, instances: set<Id>): seq<Row> {
    if usage == [] then []
    else
      var rest := KeptUsage(usage[1..], pid, instances);
      if pid == Some(usage[0].providerId) || (usage[0].instance.Some? && usage[0].instance.value in instances)
      then rest else [usage[0]] + rest
  }

  /** DeleteAIProvider: refused while an instance is live; otherwise the instance history
      goes first, then the provider with its services, their quotas and its usage. */
  function DeleteProviderStep(db: Db, name: string, clearFails: bool, deleteFails: bool): (r: (Db, Option<Error>)) {
    match FindProvider(db, name)
    case None => (db, Some(NotFound))
    case Some(pid) =>
      var gone := InstancesOf(db, pid);
      if exists id :: id in gone && Live(db.instances[id]) then (db, Some(HasLiveInstances))
      else if clearFails then (db, Some(DatabaseError))
      else
        var cleared := db.(instances := db.instances - gone, usage := KeptUsage(db.usage, None, gone));
        if deleteFails then (cleared, Some(DatabaseError))
        else
          (cleared.(providers := db.providers - {pid}, services := db.services - ServicesOf(db, pid),
                    quotas := KeptQuotas(db.quotas, ServicesOf(db, pid)),
                    usage := KeptUsage(cleared.usage, Some(pid), {})), None)
  }

  function AddProviderStep(db: Db, p: Provider): Db {
    if Blank(p.name) || (exists id :: id in db.providers && db.providers[id].name == p.name) then db
    else db.(providers := db.providers[db.nextId := p], nextId := db.nextId + 1)
  }

  /** One catalog entry of a provider sync; a slug the provider already has is skipped. */
  function AddServiceStep(db: Db, s: Service): Db {
    if s.provider !in db.providers
       || exists id :: id in db.services && db.services[id].provider == s.provider && db.services[id].slug == s.slug
    then db
    else db.(services := db.services[db.nextId := s], nextId := db.nextId + 1)
  }
}
