/** MCP governance: a registry of servers, grants per owner, and the authorization an agent
    runtime asks for, with a log of every event that set a grant's status. */
module Mcp {
  import opened Text
  import opened Ids
  import opened Calendar

  datatype ServerStatus = Enabled | Disabled

  datatype Server = Server(name: string, riskTier: string, allowedTools: seq<string>, status: ServerStatus)

  datatype GrantStatus = Requested | Active | Revoked | Rejected

  datatype Grant = Grant(server: Id, owner: string, status: GrantStatus, expiresAt: Option<Instant>)

  /** The status-setting events of a grant. */
  datatype EventKind = Granted | RequestedAccess | Approved | RejectedAccess | RevokedAccess

  datatype LogEntry = LogEntry(kind: EventKind, grant: Id)

  datatype Error = NameRequired | OwnerRequired | NotFound | NotEnabled | Duplicate

  datatype Verdict = Verdict(allowed: bool, reason: string, riskTier: string)

  // ------------------------------------------------------------------------ lookups

  function ServersNamed(servers: map<Id, Server>, name: string): set<Id> {
    set s | s in servers && servers[s].name == name
  }

  function GrantsFor(grants: map<Id, Grant>, server: Id, owner: string): set<Id> {
    set g | g in grants && grants[g].server == server && EqualFold(grants[g].owner, owner)
  }

  function ActiveFor(grants: map<Id, Grant>, server: Id, owner: string): set<Id> {
    set g | g in GrantsFor(grants, server, owner) && grants[g].status == Active
  }

  /** The greatest id: ids are handed out in the order of creation. */
  function Newest(ids: set<Id>): (id: Id)
    requires ids != {}
    ensures id in ids && forall j :: j in ids ==> j <= id
  {
    GreatestExists(ids);
    var id :| id in ids && forall j :: j in ids ==> j <= id;
    id
  }

  lemma {:induction false} Greatest(ids: set<Id>) returns (m: Id)
    requires ids != {}
    ensures m in ids && forall j :: j in ids ==> j <= m
    decreases |ids|
  {
    var k :| k in ids;
    var rest := ids - {k};
    m := k;
    if rest != {} {
      var n := Greatest(rest);
      if n > k { m := n; }
    }
    assert forall j :: j in ids ==> j == k || j in rest;
  }

  lemma GreatestExists(ids: set<Id>)
    requires ids != {}
    ensures exists m :: m in ids && forall j :: j in ids ==> j <= m
  {
    var m := Greatest(ids);
  }

  predicate ContainsFold(list: seq<string>, v: string) {
    exists item :: item in list && EqualFold(Trim(item), Trim(v))
  }

  /** A named tool passes if the server restricts nothing or lists it. */
  predicate ToolPasses(s: Server, tool: string) {
    Blank(tool) || s.allowedTools == [] || ContainsFold(s.allowedTools, tool)
  }

  predicate Expired(g: Grant, now: Instant) {
    g.expiresAt.Some? && g.expiresAt.value < now
  }

  // -------------------------------------------------------------------------- state

  datatype State = State(servers: map<Id, Server>, grants: map<Id, Grant>, log: seq<LogEntry>, nextId: Id)

  /** The last status-setting event of a grant. */
  function LastEvent(log: seq<LogEntry>, g: Id): Option<EventKind> {
    if log == [] then None
    else if log[|log| - 1].grant == g then Some(log[|log| - 1].kind)
    else LastEvent(log[..|log| - 1], g)
  }

  function StatusAfter(k: EventKind): GrantStatus {
    match k
    case Granted => Active
    case Approved => Active
    case RequestedAccess => Requested
    case RejectedAccess => Rejected
    case RevokedAccess => Revoked
  }

  function RegisterStep(s: State, name: string, risk: string, tools: seq<string>): (r: (State, Option<Error>)) {
    var n := Trim(name);
    if n == "" then (s, Some(NameRequired))
    else if ServersNamed(s.servers, n) != {} then (s, Some(Duplicate))
    else
      var tier := Lower(Trim(risk));
      (s.(servers := s.servers[s.nextId := Server(n, if tier == "" then "medium" else tier, tools, Enabled)],
          nextId := s.nextId + 1), None)
  }

  function SetStatusStep(s: State, name: string, status: ServerStatus): (r: (State, Option<Error>)) {
    var found := ServersNamed(s.servers, name);
    if found == {} then (s, Some(NotFound))
    else
      var id := Newest(found);
      (s.(servers := s.servers[id := s.servers[id].(status := status)]), None)
  }

  /** Deleting a server deletes its grants with it. */
  function DeleteStep(s: State, name: string): (r: (State, Option<Error>)) {
    var found := ServersNamed(s.servers, name);
    if found == {} then (s, Some(NotFound))
    else
      var id := Newest(found);
      (s.(servers := s.servers - {id},
          grants := map g | g in s.grants && s.grants[g].server != id :: s.grants[g]), None)
  }

  function AddGrant(s: State, g: Grant, kind: EventKind): State {
    s.(grants := s.grants[s.nextId := g], log := s.log + [LogEntry(kind, s.nextId)], nextId := s.nextId + 1)
  }

  /** GrantMCPAccess: an owner with an active grant keeps that one. The result names the
      grant that now stands for the owner. */
  function GrantStep(s: State, name: string, owner: string,
                     expiresAt: Option<Instant>): (r: (State, Option<Error>, Id)) {
    var who := Trim(owner);
    var found := ServersNamed(s.servers, name);
    if who == "" then (s, Some(OwnerRequired), 0)
    else if found == {} then (s, Some(NotFound), 0)
    else
      var id := Newest(found);
      if s.servers[id].status != Enabled then (s, Some(NotEnabled), 0)
      else
        var existing := ActiveFor(s.grants, id, who);
        if existing != {} then (s, None, Newest(existing))
        else (AddGrant(s, Grant(id, who, Active, expiresAt), Granted), None, s.nextId)
  }

  function RequestStep(s: State, name: string, owner: string): (r: (State, Option<Error>, Id)) {
    var who := Trim(owner);
    var found := ServersNamed(s.servers, name);
    if who == "" then (s, Some(OwnerRequired), 0)
    else if found == {} then (s, Some(NotFound), 0)
    else
      var id := Newest(found);
      var all := GrantsFor(s.grants, id, who);
      if all != {} && s.grants[Newest(all)].status in {Active, Requested} then (s, None, Newest(all))
      else (AddGrant(s, Grant(id, who, Requested, None), RequestedAccess), None, s.nextId)
  }

  /** Approve, reject and revoke set the status of any stored grant, whatever it was. */
  function DecideStep(s: State, g: Id, kind: EventKind): (r: (State, Option<Error>)) {
    if g !in s.grants then (s, Some(NotFound))
    else (s.(grants := s.grants[g := s.grants[g].(status := StatusAfter(kind))],
             log := s.log + [LogEntry(kind, g)]), None)
  }

  /** When an agent may connect: the server is enabled, the owner's newest active grant has
      not expired, and the tool passes. */
  predicate Authorized(s: State, name: string, owner: string, tool: string, now: Instant) {
    var found := ServersNamed(s.servers, name);
    && found != {}
    && var id := Newest(found);
       && s.servers[id].status == Enabled
       && ActiveFor(s.grants, id, Trim(owner)) != {}
       && !Expired(s.grants[Newest(ActiveFor(s.grants, id, Trim(owner)))], now)
       && ToolPasses(s.servers[id], tool)
  }

  class Registry {
    var servers: map<Id, Server>
    var grants: map<Id, Grant>
    var log: seq<LogEntry>
    var nextId: Id

    function Abs(): State
      reads this
    {
      State(servers, grants, log, nextId)
    }

    constructor ()
      ensures Abs() == EMPTY && Consistent(Abs())
    {
      servers, grants, log, nextId := map[], map[], [], 0;
    }

    method RegisterMcpServer(name: string, risk: string, tools: seq<string>) returns (err: Option<Error>)
      modifies this
      ensures (Abs(), err) == RegisterStep(old(Abs()), name, risk, tools)
      ensures Consistent(old(Abs())) ==> Consistent(Abs())
    {
      StepKeeps(Abs(), Register(name, risk, tools));
      hide Consistent;
      var n := Trim(name);
      if n == "" {
        return Some(NameRequired);
      }
      var tier := Lower(Trim(risk));
      if tier == "" {
        tier := "medium";
      }
      if ServersNamed(servers, n) != {} {
        return Some(Duplicate);
      }
      servers := servers[nextId := Server(n, tier, tools, Enabled)];
      nextId := nextId + 1;
      err := None;
    }

    method SetMcpServerStatus(name: string, status: ServerStatus) returns (err: Option<Error>)
      modifies this
      ensures (Abs(), err) == SetStatusStep(old(Abs()), name, status)
      ensures Consistent(old(Abs())) ==> Consistent(Abs())
    {
      StepKeeps(Abs(), SetStatus(name, status));
      hide Consistent;
      var found := ServersNamed(servers, name);
      if found == {} {
        return Some(NotFound);
      }
      var id := Newest(found);
      servers := servers[id := servers[id].(status := status)];
      err := None;
    }

    method DeleteMcpServer(name: string) returns (err: Option<Error>)
      modifies this
      ensures (Abs(), err) == DeleteStep(old(Abs()), name)
      ensures Consistent(old(Abs())) ==> Consistent(Abs())
    {
      StepKeeps(Abs(), Delete(name));
      hide Consistent;
      var found := ServersNamed(servers, name);
      if found == {} {
        return Some(NotFound);
      }
      var id := Newest(found);
      servers := servers - {id};
      grants := map g | g in grants && grants[g].server != id :: grants[g];
      err := None;
    }

    method GrantMcpAccess(name: string, owner: string,
                          expiresAt: Option<Instant>) returns (err: Option<Error>, grant: Id)
      modifies this
      ensures (Abs(), err, grant) == GrantStep(old(Abs()), name, owner, expiresAt)
      ensures Consistent(old(Abs())) ==> Consistent(Abs())
    {
      StepKeeps(Abs(), GrantAccess(name, owner, expiresAt));
      hide Consistent;
      grant := 0;
      var who := Trim(owner);
      if who == "" {
        return Some(OwnerRequired), grant;
      }
      var found := ServersNamed(servers, name);
      if found == {} {
        return Some(NotFound), grant;
      }
      var id := Newest(found);
      if servers[id].status != Enabled {
        return Some(NotEnabled), grant;
      }
      var existing := ActiveFor(grants, id, who);
      if existing != {} {
        return None, Newest(existing);
      }
      grant := nextId;
      grants := grants[grant := Grant(id, who, Active, expiresAt)];
      log := log + [LogEntry(Granted, grant)];
      nextId := nextId + 1;
      err := None;
    }

    method RequestMcpAccess(name: string, owner: string) returns (err: Option<Error>, grant: Id)
      modifies this
      ensures (Abs(), err, grant) == RequestStep(old(Abs()), name, owner)
      ensures Consistent(old(Abs())) ==> Consistent(Abs())
    {
      StepKeeps(Abs(), RequestAccess(name, owner));
      hide Consistent;
      grant := 0;
      var who := Trim(owner);
      if who == "" {
        return Some(OwnerRequired), grant;
      }
      var found := ServersNamed(servers, name);
      if found == {} {
        return Some(NotFound), grant;
      }
      var id := Newest(found);
      var all := GrantsFor(grants, id, who);
      if all != {} {
        var latest := Newest(all);
        if grants[latest].status == Active || grants[latest].status == Requested {
          return None, latest;
        }
      }
      grant := nextId;
      grants := grants[grant := Grant(id, who, Requested, None)];
      log := log + [LogEntry(RequestedAccess, grant)];
      nextId := nextId + 1;
      err := None;
    }

    /** ApproveMCPGrant, RejectMCPGrant and RevokeMCPGrant. */
    method DecideMcpGrant(g: Id, kind: EventKind) returns (err: Option<Error>)
      requires kind in {Approved, RejectedAccess, RevokedAccess}
      modifies this
      ensures (Abs(), err) == DecideStep(old(Abs()), g, kind)
      ensures Consistent(old(Abs())) ==> Consistent(Abs())
    {
      StepKeeps(Abs(),
                if kind == Approved then Approve(g) else if kind == RejectedAccess then Reject(g) else Revoke(g));
      hide Consistent;
      if g !in grants {
        return Some(NotFound);
      }
      grants := grants[g := grants[g].(status := StatusAfter(kind))];
      log := log + [LogEntry(kind, g)];
      err := None;
    }

    method AuthorizeMcp(name: string, owner: string, tool: string, now: Instant) returns (res: Verdict)
      ensures res.allowed <==> Authorized(Abs(), name, owner, tool, now)
      ensures res.riskTier == if ServersNamed(servers, name) == {} then ""
                              else servers[Newest(ServersNamed(servers, name))].riskTier
    {
      res := Verdict(false, "", "");
      var found := ServersNamed(servers, name);
      if found == {} {
        return res.(reason := "mcp server not registered in the governed catalog");
      }
      var srv := servers[Newest(found)];
      res := res.(riskTier := srv.riskTier);
      if srv.status != Enabled {
        return res.(reason := "mcp server is disabled");
      }
      var active := ActiveFor(grants, Newest(found), Trim(owner));
      if active == {} {
        return res.(reason := "no active grant for this owner - request access first");
      }
      var grant := grants[Newest(active)];
      if grant.expiresAt.Some? && grant.expiresAt.value < now {
        return res.(reason := "grant has expired");
      }
      if Trim(tool) != "" {
        if |srv.allowedTools| > 0 && !ContainsFold(srv.allowedTools, tool) {
          return res.(reason := "tool is not in the server's allow-list");
        }
      }
      res := res.(allowed := true, reason := "authorized");
    }
  }

  // --------------------------------------------------------------------------- runs

  datatype Event =
    | Register(name: string, risk: string, tools: seq<string>)
    | SetStatus(server: string, status: ServerStatus)
    | Delete(gone: string)
    | GrantAccess(target: string, owner: string, expiresAt: Option<Instant>)
    | RequestAccess(wanted: string, requester: string)
    | Approve(g: Id)
    | Reject(r: Id)
    | Revoke(v: Id)

  function Step(s: State, e: Event): State {
    match e
    case Register(n, risk, tools) => RegisterStep(s, n, risk, tools).0
    case SetStatus(n, st) => SetStatusStep(s, n, st).0
    case Delete(n) => DeleteStep(s, n).0
    case GrantAccess(n, o, exp) => GrantStep(s, n, o, exp).0
    case RequestAccess(n, o) => RequestStep(s, n, o).0
    case Approve(g) => DecideStep(s, g, Approved).0
    case Reject(g) => DecideStep(s, g, RejectedAccess).0
    case Revoke(g) => DecideStep(s, g, RevokedAccess).0
  }

  function Run(s: State, events: seq<Event>): State
    decreases |events|
  {
    if events == [] then s else Run(Step(s, events[0]), events[1..])
  }

  /** A stored grant's status is the one its last event set; grants belong to stored
      servers; names are unique; ids are numbered in order. */
  ghost predicate Consistent(s: State) {
    && (forall g :: g in s.grants ==>
          LastEvent(s.log, g).Some? && s.grants[g].status == StatusAfter(LastEvent(s.log, g).value))
    && (forall g :: g in s.grants ==> g < s.nextId && s.grants[g].server in s.servers)
    && (forall i :: i in s.servers ==> i < s.nextId)
    && (forall i, j :: i in s.servers && j in s.servers && s.servers[i].name == s.servers[j].name ==> i == j)
  }

  lemma LastEventAppend(log: seq<LogEntry>, e: LogEntry, g: Id)
    ensures LastEvent(log + [e], g) == if e.grant == g then Some(e.kind) else LastEvent(log, g)
  {
    assert (log + [e])[..|log|] == log;
  }

  lemma GrantChangeConsistent(s: State, g: Id, row: Grant, kind: EventKind, nextId: Id)
    requires Consistent(s) && row.status == StatusAfter(kind) && row.server in s.servers
    requires s.nextId <= nextId && g < nextId
    ensures Consistent(s.(grants := s.grants[g := row], log := s.log + [LogEntry(kind, g)], nextId := nextId))
  {
    forall h ensures LastEvent(s.log + [LogEntry(kind, g)], h) == if g == h then Some(kind) else LastEvent(s.log, h) {
      LastEventAppend(s.log, LogEntry(kind, g), h);
    }
  }

  lemma StepConsistent(s: State, e: Event)
    requires Consistent(s)
    ensures Consistent(Step(s, e)) && s.nextId <= Step(s, e).nextId
  {
    hide Consistent, RegisterStep, SetStatusStep, DeleteStep, GrantStep, RequestStep, DecideStep;
    match e
    case Register(n, risk, tools) => RegisterConsistent(s, n, risk, tools);
    case SetStatus(n, st) => SetStatusConsistent(s, n, st);
    case Delete(n) => DeleteConsistent(s, n);
    case GrantAccess(n, o, exp) => GrantConsistent(s, n, o, exp);
    case RequestAccess(n, o) => RequestConsistent(s, n, o);
    case Approve(g) => DecisionConsistent(s, g, Approved);
    case Reject(g) => DecisionConsistent(s, g, RejectedAccess);
    case Revoke(g) => DecisionConsistent(s, g, RevokedAccess);
  }

  lemma StepKeeps(s: State, e: Event)
    ensures Consistent(s) ==> Consistent(Step(s, e))
  {
    if Consistent(s) {
      StepConsistent(s, e);
    }
  }

  lemma RegisterConsistent(s: State, name: string, risk: string, tools: seq<string>)
    requires Consistent(s)
    ensures var next := RegisterStep(s, name, risk, tools).0; Consistent(next) && s.nextId <= next.nextId
  {
    forall i | i in s.servers && ServersNamed(s.servers, Trim(name)) == {} ensures s.servers[i].name != Trim(name) {
      assert i !in ServersNamed(s.servers, Trim(name));
    }
  }

  lemma SetStatusConsistent(s: State, name: string, status: ServerStatus)
    requires Consistent(s)
    ensures var next := SetStatusStep(s, name, status).0; Consistent(next) && s.nextId <= next.nextId
  {
  }

  lemma DeleteConsistent(s: State, name: string)
    requires Consistent(s)
    ensures var next := DeleteStep(s, name).0; Consistent(next) && s.nextId <= next.nextId
  {
  }

  lemma GrantConsistent(s: State, name: string, owner: string, expiresAt: Option<Instant>)
    requires Consistent(s)
    ensures var next := GrantStep(s, name, owner, expiresAt).0; Consistent(next) && s.nextId <= next.nextId
  {
    hide Consistent;
    var found := ServersNamed(s.servers, name);
    if found != {} {
      GrantChangeConsistent(s, s.nextId, Grant(Newest(found), Trim(owner), Active, expiresAt), Granted, s.nextId + 1);
    }
  }

  lemma RequestConsistent(s: State, name: string, owner: string)
    requires Consistent(s)
    ensures var next := RequestStep(s, name, owner).0; Consistent(next) && s.nextId <= next.nextId
  {
    hide Consistent;
    var found := ServersNamed(s.servers, name);
    if found != {} {
      GrantChangeConsistent(s, s.nextId, Grant(Newest(found), Trim(owner), Requested, None),
                            RequestedAccess, s.nextId + 1);
    }
  }

  lemma DecisionConsistent(s: State, g: Id, kind: EventKind)
    requires Consistent(s)
    ensures Consistent(DecideStep(s, g, kind).0) && DecideStep(s, g, kind).0.nextId == s.nextId
  {
    if g in s.grants {
      GrantChangeConsistent(s, g, s.grants[g].(status := StatusAfter(kind)), kind, s.nextId);
    }
  }

  lemma {:induction false} RunConsistent(s: State, events: seq<Event>)
    requires Consistent(s)
    ensures Consistent(Run(s, events)) && s.nextId <= Run(s, events).nextId
    decreases |events|
  {
    hide Consistent, Step;
    if events != [] {
      StepConsistent(s, events[0]);
      RunConsistent(Step(s, events[0]), events[1..]);
    }
  }

  const EMPTY := State(map[], map[], [], 0)

  /** No tool is named, the server restricts none, or its list names this one, case and outer
      space aside. */
  predicate ToolListed(tools: seq<string>, tool: string) {
    Trim(tool) == "" || tools == [] || exists item :: item in tools && Lower(Trim(item)) == Lower(Trim(tool))
  }

  predicate InForce(g: Grant, now: Instant) {
    g.expiresAt == None || now <= g.expiresAt.value
  }

  /** The owner's active grant for a server that was created last. */
  ghost predicate NewestActive(s: State, server: Id, owner: string, g: Id) {
    && IsActiveFor(s, server, owner, g)
    && forall h: Id :: IsActiveFor(s, server, owner, h) ==> h <= g
  }

  predicate IsActiveFor(s: State, server: Id, owner: string, g: Id) {
    && g in s.grants && s.grants[g].server == server && s.grants[g].status == Active
    && Lower(s.grants[g].owner) == Lower(Trim(owner))
  }

  lemma ServersOfName(s: State, id: Id)
    requires Consistent(s) && id in s.servers
    ensures ServersNamed(s.servers, s.servers[id].name) == {id}
  {
  }

  lemma ActiveGrants(s: State, id: Id, owner: string)
    ensures forall g :: g in ActiveFor(s.grants, id, Trim(owner)) <==> IsActiveFor(s, id, owner, g)
  {
  }

  /** For a stored server, in every reachable state: an agent may connect exactly if the
      server is enabled, the owner's newest active grant is in force, and the tool is listed,
      not named, or not restricted. */
  lemma AuthorizedExactly(events: seq<Event>, id: Id, owner: string, tool: string, now: Instant)
    ensures var s := Run(EMPTY, events);
            id in s.servers ==>
              (Authorized(s, s.servers[id].name, owner, tool, now) <==>
                && s.servers[id].status == Enabled
                && (exists g :: NewestActive(s, id, owner, g) && InForce(s.grants[g], now))
                && ToolListed(s.servers[id].allowedTools, tool))
  {
    RunConsistent(EMPTY, events);
    if id in Run(EMPTY, events).servers {
      AuthorizedIn(Run(EMPTY, events), id, owner, tool, now);
    }
  }

  lemma AuthorizedIn(s: State, id: Id, owner: string, tool: string, now: Instant)
    requires Consistent(s) && id in s.servers
    ensures Authorized(s, s.servers[id].name, owner, tool, now) <==>
              && s.servers[id].status == Enabled
              && (exists g :: NewestActive(s, id, owner, g) && InForce(s.grants[g], now))
              && ToolListed(s.servers[id].allowedTools, tool)
  {
    ServersOfName(s, id);
    ActiveGrants(s, id, owner);
    hide Consistent, ServersNamed, ActiveFor, IsActiveFor, Trim, Lower;
    var active := ActiveFor(s.grants, id, Trim(owner));
    if active != {} {
      assert NewestActive(s, id, owner, Newest(active));
    }
  }

  /** No other grant of the same owner on the same server is active. */
  ghost predicate NoOtherActive(s: State, g: Id)
    requires g in s.grants
  {
    forall h: Id :: IsActiveFor(s, s.grants[g].server, s.grants[g].owner, h) ==> h == g
  }

  /** A grant approved at the request of an owner who has no other active one lets that owner
      in, while it is in force and the server enabled. */
  lemma ApprovalLetsIn(s: State, g: Id, tool: string, now: Instant)
    requires Consistent(s) && g in s.grants
    ensures var next := DecideStep(s, g, Approved).0;
            var row := s.grants[g];
            var server := s.servers[row.server];
            (server.status == Enabled && InForce(row, now) && ToolListed(server.allowedTools, tool)
             && Lower(Trim(row.owner)) == Lower(row.owner) && NoOtherActive(s, g)) ==>
              Authorized(next, server.name, row.owner, tool, now)
  {
    var next := DecideStep(s, g, Approved).0;
    var row := s.grants[g];
    DecisionConsistent(s, g, Approved);
    AuthorizedIn(next, row.server, row.owner, tool, now);
    hide Consistent, Trim, Lower, ToolListed;
    if Lower(Trim(row.owner)) == Lower(row.owner) && NoOtherActive(s, g) {
      assert forall h: Id :: IsActiveFor(next, row.server, row.owner, h) ==>
        h == g || IsActiveFor(s, row.server, row.owner, h);
      assert NewestActive(next, row.server, row.owner, g);
    }
  }

  /** Revoking or rejecting the only active grant of an owner shuts that owner out. */
  lemma RevocationShutsOut(s: State, g: Id, kind: EventKind, id: Id, owner: string, tool: string, now: Instant)
    requires Consistent(s) && id in s.servers && (kind == RejectedAccess || kind == RevokedAccess)
    ensures (forall h: Id :: IsActiveFor(s, id, owner, h) ==> h == g) ==>
              !Authorized(DecideStep(s, g, kind).0, s.servers[id].name, owner, tool, now)
  {
    var next := DecideStep(s, g, kind).0;
    DecisionConsistent(s, g, kind);
    AuthorizedIn(next, id, owner, tool, now);
    hide Consistent, Trim, Lower, ToolListed, Authorized;
    if forall h: Id :: IsActiveFor(s, id, owner, h) ==> h == g {
      forall h: Id ensures !IsActiveFor(next, id, owner, h) {
        assert IsActiveFor(s, id, owner, h) ==> h == g;
      }
    }
  }

  /** Disabling a server shuts everybody out. */
  lemma DisablingShutsOut(s: State, name: string, owner: string, tool: string, now: Instant)
    requires Consistent(s)
    ensures !Authorized(SetStatusStep(s, name, Disabled).0, name, owner, tool, now)
  {
    var next := SetStatusStep(s, name, Disabled).0;
    if ServersNamed(s.servers, name) != {} {
      var id := Newest(ServersNamed(s.servers, name));
      SetStatusConsistent(s, name, Disabled);
      AuthorizedIn(next, id, owner, tool, now);
      hide Consistent, Authorized, ToolListed;
    }
  }

  /** Registering stores an enabled server under the trimmed name, with the tools and the
      lowered risk tier given, medium by default, and no grants. */
  lemma RegistrationStores(s: State, name: string, risk: string, tools: seq<string>)
    requires Consistent(s)
    ensures var (next, err) := RegisterStep(s, name, risk, tools);
            && (err.Some? ==> next == s)
            && (err.None? <==> Trim(name) != "" && forall i :: i in s.servers ==> s.servers[i].name != Trim(name))
            && (err.None? ==>
                 && next.servers == s.servers[s.nextId := Server(Trim(name),
                      if Blank(risk) then "medium" else Lower(Trim(risk)), tools, Enabled)]
                 && next.grants == s.grants
                 && forall g :: g in next.grants ==> next.grants[g].server != s.nextId)
  {
    hide Trim, Lower;
    assert Lower(Trim(risk)) == "" <==> Trim(risk) == "";
    assert forall i :: i in ServersNamed(s.servers, Trim(name)) <==> i in s.servers && s.servers[i].name == Trim(name);
  }

  /** In every reachable state an authorization rests on an enabled server, a tool that
      passes and an unexpired grant for that server and owner whose last status-setting
      event was a grant or an approval. */
  lemma AuthorizationIsSound(events: seq<Event>, name: string, owner: string, tool: string, now: Instant)
    requires Authorized(Run(EMPTY, events), name, owner, tool, now)
    ensures var s := Run(EMPTY, events);
            exists id, g ::
              && id in s.servers && s.servers[id].name == name && s.servers[id].status == Enabled
              && ToolListed(s.servers[id].allowedTools, tool)
              && g in s.grants && s.grants[g].server == id && Lower(s.grants[g].owner) == Lower(Trim(owner))
              && InForce(s.grants[g], now)
              && LastEvent(s.log, g) in {Some(Granted), Some(Approved)}
  {
    RunConsistent(EMPTY, events);
    var s := Run(EMPTY, events);
    var id := Newest(ServersNamed(s.servers, name));
    var g := Newest(ActiveFor(s.grants, id, Trim(owner)));
    assert id in s.servers && g in s.grants && s.grants[g].status == Active;
    assert StatusAfter(LastEvent(s.log, g).value) == Active;
  }

  /** The grant that a successful call returns decides whether the owner gets in. */
  lemma ReturnedGrantDecides(s: State, name: string, owner: string, expiresAt: Option<Instant>, now: Instant)
    requires GrantStep(s, name, owner, expiresAt).1.None?
    requires forall g :: g in s.grants ==> g < s.nextId
    ensures var (next, _, g) := GrantStep(s, name, owner, expiresAt);
            && g in next.grants
            && (Authorized(next, name, owner, "", now) <==> !Expired(next.grants[g], now))
  {
    var (next, _, g) := GrantStep(s, name, owner, expiresAt);
    var id := Newest(ServersNamed(s.servers, name));
    var active := ActiveFor(next.grants, id, Trim(owner));
    assert g in active;
    assert Newest(active) == g;
    assert Blank("");
  }

  /** Whether granting lets the owner in can be told before the call: with an active grant
      on file, only if that one has not expired, whatever expiry is asked for; without one,
      if the expiry asked for has not passed. */
  lemma GrantAuthorizes(s: State, name: string, owner: string, expiresAt: Option<Instant>, now: Instant)
    requires GrantStep(s, name, owner, expiresAt).1.None?
    requires forall g :: g in s.grants ==> g < s.nextId
    ensures var active := ActiveFor(s.grants, Newest(ServersNamed(s.servers, name)), Trim(owner));
            Authorized(GrantStep(s, name, owner, expiresAt).0, name, owner, "", now)
            <==> if active != {} then !Expired(s.grants[Newest(active)], now)
                 else expiresAt.None? || expiresAt.value >= now
  {
    ReturnedGrantDecides(s, name, owner, expiresAt, now);
    hide Authorized;
  }

  /** A reachable run in which granting again does not help: the first grant has expired,
      the second call asks for a later end and succeeds, and the owner stays out. */
  lemma GrantingAgainStaysOut(past: Instant, later: Instant, now: Instant)
    requires past < now <= later
    ensures var again := GrantAccess("m", "o", Some(later));
            var before := Run(EMPTY, [Register("m", "", []), GrantAccess("m", "o", Some(past))]);
            && GrantStep(before, "m", "o", Some(later)).1.None?
            && !Authorized(Step(before, again), "m", "o", "", now)
  {
    var registered, granted := Register("m", "", []), GrantAccess("m", "o", Some(past));
    var first := Step(EMPTY, registered);
    var before := Step(first, granted);
    OneByOne(EMPTY, registered, granted);
    RunConsistent(EMPTY, [registered, granted]);
    assert Trim("m") == "m" && Trim("o") == "o";
    assert ServersNamed(EMPTY.servers, "m") == {};
    assert ServersNamed(first.servers, "m") == {0};
    assert ActiveFor(first.grants, 0, "o") == {};
    assert before.grants == map[1 := Grant(0, "o", Active, Some(past))];
    assert ActiveFor(before.grants, 0, "o") == {1} by { assert 1 in ActiveFor(before.grants, 0, "o"); }
    GrantAuthorizes(before, "m", "o", Some(later), now);
  }

  lemma OneByOne(s: State, d: Event, e: Event)
    ensures Run(s, [d, e]) == Step(Step(s, d), e)
  {
    hide Step;
    assert [d, e][1..] == [e] && [e][1..] == [];
    assert Run(Step(s, d), [e]) == Run(Step(Step(s, d), e), []);
  }

  // ------------------------------------------------- no authorization without a grant

  /** No server of this name has an active grant. */
  ghost predicate NoActiveGrant(s: State, name: string) {
    forall g :: g in s.grants && s.grants[g].server in s.servers && s.servers[s.grants[g].server].name == name ==>
      s.grants[g].status != Active
  }

  predicate GivesNothing(e: Event) {
    !e.GrantAccess? && !e.Approve?
  }

  lemma StepGivesNothing(s: State, e: Event, name: string)
    requires Consistent(s) && NoActiveGrant(s, name) && GivesNothing(e)
    ensures NoActiveGrant(Step(s, e), name)
  {
    match e
    case Register(n, risk, tools) =>
    case SetStatus(n, st) => SetStatusGivesNothing(s, n, st, name);
    case Delete(n) => hide Consistent;
    case RequestAccess(n, o) => RequestGivesNothing(s, n, o, name);
    case Reject(g) => hide Consistent;
    case Revoke(g) => hide Consistent;
  }

  lemma SetStatusGivesNothing(s: State, server: string, status: ServerStatus, name: string)
    requires NoActiveGrant(s, name)
    ensures NoActiveGrant(SetStatusStep(s, server, status).0, name)
  {
  }

  lemma RequestGivesNothing(s: State, server: string, owner: string, name: string)
    requires NoActiveGrant(s, name)
    ensures NoActiveGrant(RequestStep(s, server, owner).0, name)
  {
  }

  lemma {:induction false} RunGivesNothing(s: State, events: seq<Event>, name: string)
    requires Consistent(s) && NoActiveGrant(s, name)
    requires forall e :: e in events ==> GivesNothing(e)
    ensures NoActiveGrant(Run(s, events), name)
    decreases |events|
  {
    hide Consistent, NoActiveGrant, Step, GivesNothing;
    if events != [] {
      assert events[0] in events;
      StepConsistent(s, events[0]);
      StepGivesNothing(s, events[0], name);
      RunGivesNothing(Step(s, events[0]), events[1..], name);
    }
  }

  lemma AuthorizationNeedsActiveGrant(s: State, name: string, owner: string, tool: string, now: Instant)
    requires Authorized(s, name, owner, tool, now)
    ensures !NoActiveGrant(s, name)
  {
    var id := Newest(ServersNamed(s.servers, name));
    var g := Newest(ActiveFor(s.grants, id, Trim(owner)));
    assert id in s.servers && s.servers[id].name == name;
    assert g in s.grants && s.grants[g].server == id && s.grants[g].status == Active;
  }

  /** Requests alone, in any number and order, never authorize anyone. */
  lemma RequestsNeverAuthorize(events: seq<Event>, name: string, owner: string, tool: string, now: Instant)
    requires forall e :: e in events ==> GivesNothing(e)
    ensures !Authorized(Run(EMPTY, events), name, owner, tool, now)
  {
    assert Consistent(EMPTY) && NoActiveGrant(EMPTY, name);
    RunGivesNothing(EMPTY, events, name);
    if Authorized(Run(EMPTY, events), name, owner, tool, now) {
      AuthorizationNeedsActiveGrant(Run(EMPTY, events), name, owner, tool, now);
    }
  }

  /** A server deleted and registered again under its name carries no authorization over:
      until something is granted or approved afterwards, nobody gets in. */
  lemma ReregistrationStartsAfresh(before: seq<Event>, name: string, after: seq<Event>,
                                   owner: string, tool: string, now: Instant)
    requires forall e :: e in after ==> GivesNothing(e)
    requires DeleteStep(Run(EMPTY, before), name).1.None?
    ensures !Authorized(Run(DeleteStep(Run(EMPTY, before), name).0, after), name, owner, tool, now)
  {
    assert Consistent(EMPTY);
    RunConsistent(EMPTY, before);
    var s := Run(EMPTY, before);
    var gone := DeleteStep(s, name).0;
    DeleteConsistent(s, name);
    assert forall i :: i in gone.servers ==> gone.servers[i].name != name;
    hide Consistent, DeleteStep;
    RunGivesNothing(gone, after, name);
    if Authorized(Run(gone, after), name, owner, tool, now) {
      AuthorizationNeedsActiveGrant(Run(gone, after), name, owner, tool, now);
    }
  }
}
