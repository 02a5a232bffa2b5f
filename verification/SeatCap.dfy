/** A blocking seat quota caps the number of active instances over every run. */
module SeatCap {
  import opened Text
  import opened Ids
  import opened Calendar
  import opened Ledger
  import opened Governance
  import opened Lifecycle
  import opened LifecycleRuns

  function Ceiling(limit: real): int {
    -((-limit).Floor)
  }

  /** Active instances counted against a quota. */
  function Seats(q: Quota, db: Db): nat {
    ActiveSeats(q, SeatsBelow(db.instances, db.nextId))
  }

  predicate WithinCap(q: Quota, db: Db) {
    Seats(q, db) <= Ceiling(q.limit)
  }

  function SeatOf(i: Instance): Seat {
    Seat(i.service, i.status == Active, i.tenant)
  }

  /** b counts no instance that a does not count. */
  ghost predicate NoNewSeats(q: Quota, a: map<Id, Instance>, b: map<Id, Instance>) {
    forall i :: i in b && Counts(q, SeatOf(b[i])) ==> i in a && Counts(q, SeatOf(a[i]))
  }

  lemma {:induction false} FewerSeats(q: Quota, a: map<Id, Instance>, b: map<Id, Instance>, n: nat)
    requires NoNewSeats(q, a, b)
    ensures ActiveSeats(q, SeatsBelow(b, n)) <= ActiveSeats(q, SeatsBelow(a, n))
  {
    if n > 0 {
      FewerSeats(q, a, b, n - 1);
    }
  }

  lemma {:induction false} UnusedIdsAddNoSeat(q: Quota, instances: map<Id, Instance>, n: nat, m: nat)
    requires n <= m && forall i :: i in instances ==> i < n
    ensures ActiveSeats(q, SeatsBelow(instances, m)) == ActiveSeats(q, SeatsBelow(instances, n))
    decreases m - n
  {
    if n < m {
      UnusedIdsAddNoSeat(q, instances, n, m - 1);
    }
  }

  /** A step that adds no counted instance keeps within the cap. */
  lemma NoNewSeatsKeepCap(q: Quota, db: Db, next: Db)
    requires Consistent(db) && NoNewSeats(q, db.instances, next.instances) && db.nextId <= next.nextId
    requires WithinCap(q, db)
    ensures WithinCap(q, next)
  {
    FewerSeats(q, db.instances, next.instances, next.nextId);
    UnusedIdsAddNoSeat(q, db.instances, db.nextId, next.nextId);
  }

  /** One more instance under the next id counts at most one more seat. */
  lemma OneNewSeat(q: Quota, db: Db, inst: Instance)
    requires Consistent(db)
    ensures ActiveSeats(q, SeatsBelow(db.instances[db.nextId := inst], db.nextId + 1))
         == Seats(q, db) + (if Counts(q, SeatOf(inst)) then 1 else 0)
  {
    SameBelow(q, db.instances, db.instances[db.nextId := inst], db.nextId);
  }

  lemma {:induction false} SameBelow(q: Quota, a: map<Id, Instance>, b: map<Id, Instance>, n: nat)
    requires forall i :: 0 <= i < n ==> (i in a <==> i in b) && (i in a ==> a[i] == b[i])
    ensures SeatsBelow(a, n) == SeatsBelow(b, n)
  {
    if n > 0 {
      SameBelow(q, a, b, n - 1);
    }
  }

  lemma BelowLimitLeavesRoom(count: nat, limit: real)
    requires count as real < limit
    ensures count + 1 <= Ceiling(limit)
  {
    var k := (-limit).Floor;
    assert k as real <= -limit < k as real + 1.0;
    assert count as real < -(k as real);
    assert count < -k;
  }

  /** An instance is created only if no blocking seat quota of its service is used up. */
  lemma AdmittedInstanceFits(z: Zone, q: Quota, db: Db, sid: Id, rc: RequestContext, now: Instant)
    requires q in db.quotas && IsSeatQuota(q) && q.enforcement == "block"
    requires rc.serviceId == sid
    requires HardReasons(z, None, TablesOf(db), rc, now) == []
    ensures Concerns(q, sid) ==> Seats(q, db) as real < q.limit
  {
    VerdictIsExact(z, None, TablesOf(db), rc, now);
    UnscopedSeesAll(TablesOf(db).seats, SeatTenant);
    hide ActiveSeats, OverBudget, DeniedByPolicy, SeatsBelow;
    assert !OutOfSeats(None, db.quotas, TablesOf(db).seats, rc);
  }

  lemma ProvisionKeepsCap(z: Zone, q: Quota, db: Db, rid: Id, now: Instant, f: Faults, seed: seq<Row>)
    requires Consistent(db) && rid in db.requests
    requires q in db.quotas && IsSeatQuota(q) && q.enforcement == "block" && WithinCap(q, db)
    ensures WithinCap(q, ProvisionStep(z, db, rid, now, f, seed).0)
  {
    hide HardReasons, LookupService, TablesOf, ActiveSeats, SeatsBelow, Consistent, Ceiling;
    var (after, err) := ProvisionStep(z, db, rid, now, f, seed);
    if err.None? {
      var inst := after.instances[db.nextId];
      var req := db.requests[rid];
      OneNewSeat(q, db, inst);
      var rc := ContextOf(db, inst.service, inst.owner, inst.workspace, req.tenant);
      AdmittedInstanceFits(z, q, db, inst.service, rc, now);
      if Counts(q, SeatOf(inst)) {
        BelowLimitLeavesRoom(Seats(q, db), q.limit);
      }
    }
  }

  lemma ApprovalKeepsCap(z: Zone, q: Quota, db: Db, rid: Id, actor: string, now: Instant, f: Faults, seed: seq<Row>)
    requires Consistent(db) && rid in db.requests && db.requests[rid].status == Pending
    requires q in db.quotas && IsSeatQuota(q) && q.enforcement == "block" && WithinCap(q, db)
    ensures WithinCap(q, DecideAndProvision(z, db, rid, actor, now, f, seed).0)
  {
    hide ProvisionStep, Consistent, ActiveSeats, SeatsBelow, Ceiling, IsSeatQuota;
    var approved := db.requests[rid].(status := Approved, decidedBy := actor, reason := "");
    PendingHasNoInstance(db, rid);
    RequestUpdateConsistent(db, rid, approved);
    ProvisionKeepsCap(z, q, WithRequest(db, rid, approved), rid, now, f, seed);
  }

  /** Everything but an approval leaves the counted instances or reduces them. */
  lemma OtherStepsAddNoSeat(z: Zone, q: Quota, db: Db, e: Event)
    requires Consistent(db) && !e.Approve?
    ensures NoNewSeats(q, db.instances, Step(z, db, e).instances)
    ensures db.nextId <= Step(z, db, e).nextId
  {
    hide Consistent, CreateStep, ReapStep, DeleteProviderStep, RevokeStep, RecertifyStep, RejectStep, NoNewSeats;
    match e
    case Create(_, _, _, _, _, _) => CreateAddsNoSeat(z, q, db, e);
    case Reap(ids, now, p, w) => ReapAddsNoSeat(q, db, ids, now, p, w);
    case DeleteProvider(n, c, d) => DeletionAddsNoSeat(q, db, n, c, d);
    case Revoke(id, now, p, w) => RevokeAddsNoSeat(q, db, id, now, p, w);
    case Recertify(_, _, _, _) => RecertifyAddsNoSeat(z, q, db, e);
    case Reject(_, _, _, _, _) => RejectAddsNoSeat(z, q, db, e);
    case _ => NoNewSeatsReflexive(q, db.instances);
  }

  lemma NoNewSeatsReflexive(q: Quota, a: map<Id, Instance>)
    ensures NoNewSeats(q, a, a)
  {
  }

  lemma CreateAddsNoSeat(z: Zone, q: Quota, db: Db, e: Event)
    requires e.Create?
    ensures NoNewSeats(q, db.instances, Step(z, db, e).instances) && db.nextId <= Step(z, db, e).nextId
  {
    hide HardReasons, LookupService, TablesOf;
  }

  lemma DeletionAddsNoSeat(q: Quota, db: Db, name: string, clearFails: bool, deleteFails: bool)
    ensures var next := DeleteProviderStep(db, name, clearFails, deleteFails).0;
            NoNewSeats(q, db.instances, next.instances) && db.nextId == next.nextId
  {
    hide KeptUsage, KeptQuotas, FindProvider;
  }

  lemma RevokeAddsNoSeat(q: Quota, db: Db, id: Id, now: Instant, providerFails: bool, writeFails: bool)
    ensures var next := RevokeStep(db, id, now, providerFails, writeFails).0;
            NoNewSeats(q, db.instances, next.instances) && db.nextId == next.nextId
  {
  }

  lemma RecertifyAddsNoSeat(z: Zone, q: Quota, db: Db, e: Event)
    requires e.Recertify?
    ensures NoNewSeats(q, db.instances, Step(z, db, e).instances) && db.nextId == Step(z, db, e).nextId
  {
    hide CreateStep, ApproveStep, RejectStep, RevokeStep, ReapStep, DeleteProviderStep, AddProviderStep, AddServiceStep;
  }

  lemma RejectAddsNoSeat(z: Zone, q: Quota, db: Db, e: Event)
    requires e.Reject?
    ensures NoNewSeats(q, db.instances, Step(z, db, e).instances) && db.nextId == Step(z, db, e).nextId
  {
    hide FindRequest;
  }

  lemma {:induction false} ReapAddsNoSeat(q: Quota, db: Db, ids: seq<Id>, now: Instant, refusing: set<Id>,
                                          unwritable: set<Id>)
    ensures NoNewSeats(q, db.instances, ReapStep(db, ids, now, refusing, unwritable).0.instances)
    ensures ReapStep(db, ids, now, refusing, unwritable).0.nextId == db.nextId
    decreases |ids|
  {
    if ids != [] {
      var id := ids[0];
      if id in db.instances && Due(db.instances[id], now) {
        var next := RevokeStep(db, id, now, id in refusing, id in unwritable).0;
        RevokeAddsNoSeat(q, db, id, now, id in refusing, id in unwritable);
        hide RevokeStep;
        ReapAddsNoSeat(q, next, ids[1..], now, refusing, unwritable);
      } else {
        ReapAddsNoSeat(q, db, ids[1..], now, refusing, unwritable);
      }
    }
  }

  lemma StepKeepsCap(z: Zone, q: Quota, db: Db, e: Event)
    requires Consistent(db)
    requires q in db.quotas && IsSeatQuota(q) && q.enforcement == "block" && WithinCap(q, db)
    ensures WithinCap(q, Step(z, db, e))
  {
    hide Consistent, WithinCap, IsSeatQuota, DecideAndProvision, NoNewSeats;
    if e.Approve? {
      var found := FindRequest(db, e.reqName, if e.environment == "" then "dev" else e.environment);
      if found.Some? && db.requests[found.value].status == Pending {
        ApprovalKeepsCap(z, q, db, found.value, e.actor, e.at, e.faults, e.seed);
      }
    } else {
      OtherStepsAddNoSeat(z, q, db, e);
      NoNewSeatsKeepCap(q, db, Step(z, db, e));
    }
  }

  /** The quota is on file whenever a call of the run starts. */
  predicate Stands(z: Zone, db: Db, events: seq<Event>, q: Quota)
    decreases |events|
  {
    events == [] || (q in db.quotas && Stands(z, Step(z, db, events[0]), events[1..], q))
  }

  lemma {:induction false} RunKeepsCap(z: Zone, db: Db, events: seq<Event>, q: Quota)
    requires Consistent(db)
    requires IsSeatQuota(q) && q.enforcement == "block" && WithinCap(q, db)
    requires Stands(z, db, events, q)
    ensures WithinCap(q, Run(z, db, events)) && Consistent(Run(z, db, events))
    decreases |events|
  {
    hide Consistent, Step, WithinCap, IsSeatQuota;
    if events != [] {
      StepConsistent(z, db, events[0]);
      StepKeepsCap(z, q, db, events[0]);
      RunKeepsCap(z, Step(z, db, events[0]), events[1..], q);
    }
  }

  /** The instances that use up a quota: the active ones, of its service if it names one. */
  function SeatHolders(q: Quota, instances: map<Id, Instance>): set<Id> {
    set id |
      && id in instances
      && instances[id].status == Active
      && (q.serviceId == None || q.serviceId == Some(instances[id].service))
  }

  lemma {:induction false} SeatsAreHolders(q: Quota, instances: map<Id, Instance>, n: nat)
    ensures ActiveSeats(q, SeatsBelow(instances, n)) == |set id | id in SeatHolders(q, instances) && id < n|
  {
    var below := set id | id in SeatHolders(q, instances) && id < n;
    if n == 0 {
      assert below == {};
    } else {
      SeatsAreHolders(q, instances, n - 1);
      var rest := set id | id in SeatHolders(q, instances) && id < n - 1;
      assert below == rest + (if n - 1 in SeatHolders(q, instances) then {n - 1} else {});
    }
  }

  lemma CapOnHolders(q: Quota, db: Db)
    requires Consistent(db)
    ensures WithinCap(q, db) <==> |SeatHolders(q, db.instances)| as real < q.limit + 1.0
  {
    SeatsAreHolders(q, db.instances, db.nextId);
    var below := set id | id in SeatHolders(q, db.instances) && id < db.nextId;
    assert below == SeatHolders(q, db.instances);
    CeilingBounds(Seats(q, db), q.limit);
  }

  lemma CeilingBounds(n: nat, limit: real)
    ensures n <= Ceiling(limit) <==> n as real < limit + 1.0
  {
    var k := (-limit).Floor;
    assert k as real <= -limit < k as real + 1.0;
    if n as real < limit + 1.0 {
      assert (n + k) as real < 1.0;
    }
  }

  /** While a blocking quota of limit L on seats stands, no run of requests, approvals,
      revocations, recertifications, reaps, provider changes and changes of the other quotas,
      policies, budgets and usage takes the active instances that use it up to L + 1 or more,
      if they started below that. */
  lemma SeatCapHolds(z: Zone, db: Db, events: seq<Event>, q: Quota)
    requires Consistent(db) && Stands(z, db, events, q) && q.enforcement == "block"
    requires Lower(Trim(q.metric)) == "instances" || Lower(Trim(q.metric)) == "seats"
    requires |SeatHolders(q, db.instances)| as real < q.limit + 1.0
    ensures |SeatHolders(q, Run(z, db, events).instances)| as real < q.limit + 1.0
  {
    hide Consistent, WithinCap, SeatHolders, Run;
    CapOnHolders(q, db);
    RunKeepsCap(z, db, events, q);
    CapOnHolders(q, Run(z, db, events));
  }
}
