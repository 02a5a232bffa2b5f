/** What the reaper does to expired access, the access review that would show its gaps,
    and how long a recertified instance lives. */
module Expiry {
  import opened Text
  import opened Ids
  import opened Calendar
  import opened Governance
  import opened Lifecycle
  import opened LifecycleRuns

  /** Due, and nothing that goes wrong in this pass keeps it from being revoked. */
  predicate Reapable(i: Instance, id: Id, now: Instant, refusing: set<Id>, unwritable: set<Id>) {
    && (i.status == Active || i.status == Suspended)
    && i.expiresAt.Some? && i.expiresAt.value <= now
    && id !in refusing && id !in unwritable
  }

  function Reaped(i: Instance, now: Instant): Instance {
    i.(status := InstanceStatus.Revoked, revokedAt := Some(now))
  }

  function ReapedIds(db: Db, ids: seq<Id>, now: Instant, refusing: set<Id>, unwritable: set<Id>): set<Id> {
    set id | id in ids && id in db.instances && Reapable(db.instances[id], id, now, refusing, unwritable)
  }

  lemma RevokeEffect(db: Db, id: Id, now: Instant, refuses: bool, unwritable: bool)
    requires Consistent(db) && id in db.instances && Live(db.instances[id])
    ensures var (next, err) := RevokeStep(db, id, now, refuses, unwritable);
            if refuses || unwritable then err.Some? && next.instances == db.instances
            else err.None? && next.instances == db.instances[id := Reaped(db.instances[id], now)]
  {
  }

  lemma NothingListed(db: Db, now: Instant, refusing: set<Id>, unwritable: set<Id>)
    ensures ReapedIds(db, [], now, refusing, unwritable) == {}
  {
  }

  lemma ReapedHead(db: Db, ids: seq<Id>, now: Instant, refusing: set<Id>, unwritable: set<Id>)
    requires ids != []
    ensures ReapedIds(db, ids, now, refusing, unwritable)
         == ReapedIds(db, ids[1..], now, refusing, unwritable)
            + (if ids[0] in db.instances && Reapable(db.instances[ids[0]], ids[0], now, refusing, unwritable)
               then {ids[0]} else {})
  {
    assert ids == [ids[0]] + ids[1..];
  }

  /** Once revoked, an instance is not due again. */
  lemma ReapedAfterwards(db: Db, next: Db, id: Id, ids: seq<Id>, now: Instant, refusing: set<Id>, unwritable: set<Id>)
    requires id in db.instances
    ensures next.instances == db.instances ==>
              ReapedIds(next, ids, now, refusing, unwritable) == ReapedIds(db, ids, now, refusing, unwritable)
    ensures next.instances == db.instances[id := Reaped(db.instances[id], now)] ==>
              ReapedIds(next, ids, now, refusing, unwritable) == ReapedIds(db, ids, now, refusing, unwritable) - {id}
    ensures id in ReapedIds(db, ids, now, refusing, unwritable) ==>
              Reapable(db.instances[id], id, now, refusing, unwritable)
  {
  }

  /** A pass over a list of instances revokes exactly the due ones for which neither the
      provider nor the database fails, counts them, and changes no other row. */
  lemma {:induction false} ReapExact(db: Db, ids: seq<Id>, now: Instant, refusing: set<Id>, unwritable: set<Id>)
    requires Consistent(db)
    ensures var (last, n) := ReapStep(db, ids, now, refusing, unwritable);
            && n == |ReapedIds(db, ids, now, refusing, unwritable)|
            && last.instances.Keys == db.instances.Keys
            && forall i :: i in db.instances ==>
                 last.instances[i] == if i in ReapedIds(db, ids, now, refusing, unwritable)
                                      then Reaped(db.instances[i], now) else db.instances[i]
    decreases |ids|
  {
    hide Consistent, RevokeStep, ReapedIds;
    if ids == [] {
      assert ReapedIds(db, ids, now, refusing, unwritable) == {} by { NothingListed(db, now, refusing, unwritable); }
    } else {
      var id := ids[0];
      ReapedHead(db, ids, now, refusing, unwritable);
      if id in db.instances && Due(db.instances[id], now) {
        RevokeEffect(db, id, now, id in refusing, id in unwritable);
        RevokeConsistent(db, id, now, id in refusing, id in unwritable);
        var (next, err) := RevokeStep(db, id, now, id in refusing, id in unwritable);
        ReapExact(next, ids[1..], now, refusing, unwritable);
        ReapedAfterwards(db, next, id, ids[1..], now, refusing, unwritable);
      } else {
        ReapExact(db, ids[1..], now, refusing, unwritable);
      }
    }
  }

  // ----------------------------------------------------------------- access review

  datatype Flag = Fine | NoExpiry | Overdue | ExpiringSoon | LongLived

  /** The first matching condition, in the order of the review. */
  function ReviewFlag(i: Instance, now: Instant, staleDays: int): Flag {
    var days := if staleDays <= 0 then 90 else staleDays;
    var age := (now - i.createdAt) / DAY;
    if i.expiresAt.None? then NoExpiry
    else if i.expiresAt.value < now then Overdue
    else if i.expiresAt.value < now + days * DAY then ExpiringSoon
    else if now >= i.createdAt && age >= days then LongLived
    else Fine
  }

  /** The work-list in the order of a listing of instances. */
  function ReviewList(db: Db, ids: seq<Id>, now: Instant, staleDays: int): seq<(Id, Flag)> {
    if ids == [] then []
    else
      var rest := ReviewList(db, ids[1..], now, staleDays);
      if ids[0] in db.instances && Live(db.instances[ids[0]])
      then [(ids[0], ReviewFlag(db.instances[ids[0]], now, staleDays))] + rest
      else rest
  }

  method FlagInstance(r: Instance, now: Instant, days: int) returns (flag: Flag)
    requires days > 0
    ensures flag == ReviewFlag(r, now, days)
  {
    var age := (now - r.createdAt) / DAY;
    flag := Fine;
    if r.expiresAt.None? {
      flag := NoExpiry;
    } else if r.expiresAt.value < now {
      flag := Overdue;
    } else if r.expiresAt.value < now + days * DAY {
      flag := ExpiringSoon;
    } else if now >= r.createdAt && age >= days {
      flag := LongLived;
    }
  }

  method ListAiAccessReview(db: Db, ids: seq<Id>, now: Instant, staleDays: int) returns (out: seq<(Id, Flag)>)
    ensures out == ReviewList(db, ids, now, staleDays)
  {
    var days := staleDays;
    if days <= 0 {
      days := 90;
    }
    out := [];
    for k := 0 to |ids|
      invariant out + ReviewList(db, ids[k..], now, staleDays) == ReviewList(db, ids, now, staleDays)
    {
      var id := ids[k];
      assert ids[k..][0] == id && ids[k..][1..] == ids[k + 1..];
      if id !in db.instances || !Live(db.instances[id]) {
        continue;
      }
      var flag := FlagInstance(db.instances[id], now, days);
      out := out + [(id, flag)];
    }
  }

  /** What each flag says of an instance, for a horizon of so many days. */
  predicate Deserves(i: Instance, flag: Flag, now: Instant, days: int) {
    match (i.expiresAt, flag)
    case (None, _) => flag == NoExpiry
    case (Some(end), NoExpiry) => false
    case (Some(end), Overdue) => end < now
    case (Some(end), ExpiringSoon) => now <= end && end - now < days * 86400
    case (Some(end), LongLived) => end - now >= days * 86400 && now - i.createdAt >= days * 86400
    case (Some(end), Fine) => end - now >= days * 86400 && now - i.createdAt < days * 86400
  }

  lemma FlagDeserved(i: Instance, flag: Flag, now: Instant, staleDays: int)
    ensures ReviewFlag(i, now, staleDays) == flag <==> Deserves(i, flag, now, if staleDays <= 0 then 90 else staleDays)
  {
    var days := if staleDays <= 0 then 90 else staleDays;
    var age, lived := (now - i.createdAt) / 86400, now - i.createdAt;
    assert lived == age * 86400 + lived % 86400;
    assert age >= days <==> lived >= days * 86400;
  }

  /** The list holds the active and suspended instances it is asked about, each with the one
      flag it deserves; the horizon is ninety days by default. */
  lemma {:induction false} ReviewListExact(db: Db, ids: seq<Id>, now: Instant, staleDays: int, id: Id, flag: Flag)
    ensures (id, flag) in ReviewList(db, ids, now, staleDays) <==>
              && id in ids && id in db.instances
              && (db.instances[id].status == Active || db.instances[id].status == Suspended)
              && Deserves(db.instances[id], flag, now, if staleDays <= 0 then 90 else staleDays)
  {
    if id in db.instances {
      FlagDeserved(db.instances[id], flag, now, staleDays);
    }
    hide ReviewFlag, Deserves;
    if ids != [] {
      ReviewListExact(db, ids[1..], now, staleDays, id, flag);
      assert ids == [ids[0]] + ids[1..];
    }
  }

  /** The list the reaper reads names every instance. */
  predicate Lists(ids: seq<Id>, db: Db) {
    forall id :: id in db.instances ==> id in ids
  }

  /** After a pass in which nothing failed, a review at the same time finds nothing
      overdue, and a second pass has nothing to do. */
  lemma NothingOverdueAfterReap(db: Db, ids: seq<Id>, again: seq<Id>, now: Instant, staleDays: int,
                                refusing: set<Id>, unwritable: set<Id>)
    requires Consistent(db) && Lists(ids, db)
    ensures var last := ReapStep(db, ids, now, {}, {}).0;
            && (forall id: Id :: (id, Overdue) !in ReviewList(last, again, now, staleDays))
            && ReapStep(last, again, now, refusing, unwritable) == (last, 0)
  {
    ReapExact(db, ids, now, {}, {});
    hide Consistent, ReapStep;
    var last := ReapStep(db, ids, now, {}, {}).0;
    forall id | id in last.instances ensures !Due(last.instances[id], now) {
      assert id in db.instances.Keys;
    }
    NothingDue(last, again, now, refusing, unwritable);
    hide ReviewList, ReapedIds, Reaped;
    forall id: Id ensures (id, Overdue) !in ReviewList(last, again, now, staleDays) {
      ReviewListExact(last, again, now, staleDays, id, Overdue);
    }
  }

  lemma {:induction false} NothingDue(db: Db, ids: seq<Id>, now: Instant, refusing: set<Id>, unwritable: set<Id>)
    requires forall id :: id in db.instances ==> !Due(db.instances[id], now)
    ensures ReapStep(db, ids, now, refusing, unwritable) == (db, 0)
    decreases |ids|
  {
    if ids != [] {
      NothingDue(db, ids[1..], now, refusing, unwritable);
    }
  }

  // ---------------------------------------------------------------- recertification

  /** Recertifying live access gives it the window asked for, ninety days by default. */
  lemma RecertifyExtends(db: Db, id: Id, days: int, now: Instant)
    requires id in db.instances
    ensures var (next, err) := RecertifyStep(db, id, days, now, false);
            && (err.None? <==> Live(db.instances[id]))
            && (err.Some? ==> next == db)
            && (err.None? ==> id in next.instances && next.instances[id] == db.instances[id].(
                                expiresAt := Some(now + (if days <= 0 then 90 else days) * 86400)))
  {
  }

  /** An event that neither revokes nor recertifies id, and reaps only before t. */
  predicate Spares(e: Event, id: Id, t: Instant) {
    match e
    case Revoke(other, _, _, _) => other != id
    case Recertify(other, _, _, _) => other != id
    case Reap(_, now, _, _) => now < t
    case _ => true
  }

  lemma StepSpares(z: Zone, db: Db, e: Event, id: Id, t: Instant)
    requires Consistent(db) && Spares(e, id, t)
    requires id in db.instances && Live(db.instances[id]) && db.instances[id].expiresAt == Some(t)
    ensures id in Step(z, db, e).instances && Step(z, db, e).instances[id] == db.instances[id]
  {
    hide Consistent, ReapStep, ApproveStep, CreateStep, DeleteProviderStep, Evolves, KeepsLive;
    match e
    case Reap(ids, now, p, w) =>
      ReapExact(db, ids, now, p, w);
      assert id in db.instances.Keys;
    case Approve(_, _, _, _, _, _) => ApproveEvolves(z, db, e);
    case DeleteProvider(n, c, d) => DeletionSpares(db, n, c, d, id);
    case Create(_, _, _, _, _, _) => CreateSpares(z, db, e);
    case _ =>
  }

  lemma DeletionSpares(db: Db, name: string, clearFails: bool, deleteFails: bool, id: Id)
    requires id in db.instances && Live(db.instances[id])
    ensures var next := DeleteProviderStep(db, name, clearFails, deleteFails).0;
            id in next.instances && next.instances[id] == db.instances[id]
  {
    hide KeptUsage, KeptQuotas, FindProvider;
  }

  lemma CreateSpares(z: Zone, db: Db, e: Event)
    requires e.Create?
    ensures Step(z, db, e).instances == db.instances
  {
    hide HardReasons, LookupService, TablesOf;
  }

  /** A live instance survives, unchanged, every run in which it is not itself revoked or
      recertified and the reaper runs only before its expiry. */
  lemma {:induction false} LiveSurvives(z: Zone, db: Db, events: seq<Event>, id: Id, t: Instant)
    requires Consistent(db) && forall e :: e in events ==> Spares(e, id, t)
    requires id in db.instances && Live(db.instances[id]) && db.instances[id].expiresAt == Some(t)
    ensures id in Run(z, db, events).instances && Run(z, db, events).instances[id] == db.instances[id]
    decreases |events|
  {
    hide Consistent, Step, Spares;
    if events != [] {
      var e := events[0];
      assert e in events;
      StepConsistent(z, db, e);
      StepSpares(z, db, e, id, t);
      LiveSurvives(z, Step(z, db, e), events[1..], id, t);
    }
  }

  /** Recertifying a live instance keeps it, with nothing but the new end, through every run
      in which it is not revoked or recertified again and the reaper runs only before that
      end: the window asked for, ninety days by default, from the recertification on. */
  lemma RecertifiedSurvives(z: Zone, db: Db, id: Id, days: int, now: Instant, events: seq<Event>)
    requires Consistent(db) && id in db.instances && Live(db.instances[id])
    requires forall e :: e in events ==> Spares(e, id, now + (if days <= 0 then 90 else days) * 86400)
    ensures var last := Run(z, RecertifyStep(db, id, days, now, false).0, events);
            id in last.instances
            && last.instances[id] == db.instances[id].(
                 expiresAt := Some(now + (if days <= 0 then 90 else days) * 86400))
  {
    var next := RecertifyStep(db, id, days, now, false).0;
    RecertifyExtends(db, id, days, now);
    RecertifyConsistent(db, id, days, now, false);
    hide Consistent, Run, Spares, RecertifyStep;
    LiveSurvives(z, next, events, id, now + (if days <= 0 then 90 else days) * 86400);
  }
}
