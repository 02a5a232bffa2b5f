/** Real workspace grants through the admin API and their revocation. The organization is
    remote state; every call to it may fail, which `down` decides call by call. */
module Grants {
  import opened Text
  import opened Ids
  import opened OrgAdmin
  import opened AccessIds

  datatype Workspace = Workspace(id: string, name: string, archivedAt: string)

  function WorkspaceId(w: Workspace): string { w.id }

  type Pair = (string, string)

  /** The organization: its users and workspaces in listing order, the explicit workspace
      memberships by (workspace, user), and the pending invites by id. */
  datatype Org = Org(users: seq<OrgUser>, workspaces: seq<Workspace>, members: map<Pair, string>,
                     invites: map<string, string>, nextInvite: nat)

  datatype Call = UsersPage(page: nat) | WorkspacesPage(page: nat) | CreateInvite | GetUser
                | AddMember | UpdateMember | RemoveMember | DeleteInvite

  /** The text with which a call fails, if it fails. */
  type Outage = Call -> Option<string>

  datatype Error = Unavailable(text: string) | ListingFailed | NotFound | AlreadyMember | BillingMember | MissingIds
                 | NoActiveWorkspace | RoleNotAllowed | MissingAccessId | MalformedAccessId

  datatype Reply = Done | Failed(error: Error)
  datatype Provisioned = Issued(id: string) | Refused(error: Error)

  ghost predicate ValidOrg(o: Org) {
    && DistinctIds(o.users, UserId)
    && DistinctIds(o.workspaces, WorkspaceId)
    && forall id :: id in o.invites ==> exists k: nat :: k < o.nextInvite && id == IdText(k)
  }

  // ------------------------------------------------------------------- the endpoints

  function FindUser(users: seq<OrgUser>, id: string): Option<OrgUser> {
    if users == [] then None
    else if users[0].id == id then Some(users[0])
    else FindUser(users[1..], id)
  }

  function OrgRole(o: Org, user: string): string {
    var u := FindUser(o.users, user);
    if u.Some? then u.value.role else ""
  }

  predicate RoleComboAllowed(orgRole: string, role: string) {
    role != "workspace_billing" && (orgRole == "billing" ==> role == "workspace_admin")
  }

  /** A role a membership can hold: one the matrix allows, or the inherited role that a
      billing user is reset to. */
  predicate RoleKept(orgRole: string, role: string) {
    RoleComboAllowed(orgRole, role) || (orgRole == "billing" && role == "workspace_billing")
  }

  /** Adding is not idempotent: a second add is refused. */
  function PostMember(o: Org, pair: Pair, role: string, down: Outage): (Org, Reply) {
    if down(AddMember).Some? then (o, Failed(Unavailable(down(AddMember).value)))
    else if pair in o.members then (o, Failed(AlreadyMember))
    else if !RoleComboAllowed(OrgRole(o, pair.1), role) then (o, Failed(RoleNotAllowed))
    else (o.(members := o.members[pair := role]), Done)
  }

  function PostRole(o: Org, pair: Pair, role: string, down: Outage): (Org, Reply) {
    if down(UpdateMember).Some? then (o, Failed(Unavailable(down(UpdateMember).value)))
    else if pair !in o.members then (o, Failed(NotFound))
    else if !RoleKept(OrgRole(o, pair.1), role) then (o, Failed(RoleNotAllowed))
    else (o.(members := o.members[pair := role]), Done)
  }

  /** A billing user's membership cannot be removed. */
  function DeleteMember(o: Org, pair: Pair, down: Outage): (Org, Reply) {
    if down(RemoveMember).Some? then (o, Failed(Unavailable(down(RemoveMember).value)))
    else if pair !in o.members then (o, Failed(NotFound))
    else if OrgRole(o, pair.1) == "billing" then (o, Failed(BillingMember))
    else (o.(members := o.members - {pair}), Done)
  }

  function PostInvite(o: Org, email: string, down: Outage): (Org, Provisioned) {
    if down(CreateInvite).Some? then (o, Refused(Unavailable(down(CreateInvite).value)))
    else
      var id := IdText(o.nextInvite);
      (o.(invites := o.invites[id := email], nextInvite := o.nextInvite + 1), Issued(InviteAccess(id)))
  }

  function RemoveInvite(o: Org, invite: string, down: Outage): (Org, Reply) {
    if down(DeleteInvite).Some? then (o, Failed(Unavailable(down(DeleteInvite).value)))
    else if invite !in o.invites then (o, Failed(NotFound))
    else (o.(invites := o.invites - {invite}), Done)
  }

  // --------------------------------------------------------------- what a grant means

  /** The workspace role a request's spec asks for, if it holds a text at all. */
  function RequestedRole(spec: Option<string>): string {
    if spec.Some? && !Blank(spec.value) then Trim(spec.value) else "workspace_developer"
  }

  /** Why adding or updating a membership fails, if it does. */
  function GrantFailure(o: Org, ws: string, user: string, role: string, down: Outage): Option<Error> {
    if ws == "" || user == "" then Some(MissingIds)
    else if down(GetUser).Some? then Some(Unavailable(down(GetUser).value))
    else if FindUser(o.users, user).None? then Some(NotFound)
    else if !RoleComboAllowed(OrgRole(o, user), role) then Some(RoleNotAllowed)
    else if down(AddMember).Some? then Some(Unavailable(down(AddMember).value))
    else if (ws, user) in o.members && down(UpdateMember).Some? then Some(Unavailable(down(UpdateMember).value))
    else None
  }

  function Answer(failure: Option<Error>): Reply {
    if failure.Some? then Failed(failure.value) else Done
  }

  function FirstByEmail(users: seq<OrgUser>, email: string): Option<OrgUser> {
    if users == [] then None
    else if EqualFold(users[0].email, email) then Some(users[0])
    else FirstByEmail(users[1..], email)
  }

  predicate Named(w: Workspace, ref: string) {
    w.archivedAt == "" && (EqualFold(w.name, ref) || w.id == ref)
  }

  function FirstNamed(workspaces: seq<Workspace>, ref: string): Option<Workspace> {
    if workspaces == [] then None
    else if Named(workspaces[0], ref) then Some(workspaces[0])
    else FirstNamed(workspaces[1..], ref)
  }

  /** The role actually given: what was asked for if the matrix allows it, else the one role
      a billing user can be promoted to. */
  function GivenRole(orgRole: string, asked: string): string {
    if !RoleComboAllowed(orgRole, asked) && orgRole == "billing" then "workspace_admin" else asked
  }

  function UserPages(down: Outage): nat -> bool {
    (p: nat) => down(UsersPage(p)).Some?
  }

  function WorkspacePages(down: Outage): nat -> bool {
    (p: nat) => down(WorkspacesPage(p)).Some?
  }

  datatype Plan = Invite | Join(ws: string, user: string, role: string) | Stop(error: Error)

  /** What a real grant sets out to do. */
  ghost function PlanGrant(o: Org, email: string, ref: string, spec: Option<string>, down: Outage): Plan {
    if ListingFails(|o.users|, UserPages(down)) then Stop(ListingFailed)
    else
      var user := FirstByEmail(Listed(o.users), email);
      if user.None? then Invite
      else if ListingFails(|o.workspaces|, WorkspacePages(down)) then Stop(ListingFailed)
      else
        var w := FirstNamed(Listed(o.workspaces), ref);
        if w.None? then Stop(NoActiveWorkspace)
        else
          var role := GivenRole(user.value.role, RequestedRole(spec));
          if !RoleComboAllowed(user.value.role, role) then Stop(RoleNotAllowed)
          else Join(w.value.id, user.value.id, role)
  }

  ghost function RealGrant(o: Org, email: string, ref: string, spec: Option<string>, down: Outage): (Org, Provisioned) {
    match PlanGrant(o, email, ref, spec, down)
    case Stop(error) => (o, Refused(error))
    case Invite => PostInvite(o, email, down)
    case Join(ws, user, role) =>
      var failure := GrantFailure(o, ws, user, role, down);
      if failure.Some? then (o, Refused(failure.value))
      else (o.(members := o.members[(ws, user) := role]), Issued(WorkspaceAccess(ws, user)))
  }

  /** A provisioning request: the owner, the workspace and the role it names, whether an
      admin key is configured, and the digest a governance-only record would carry. */
  datatype Request = Request(owner: string, workspace: string, spec: Option<string>, adminKey: string, digest: Digest)

  predicate WantsRealGrant(r: Request) {
    && !Blank(r.adminKey)
    && '@' in Trim(r.owner)
    && !Blank(r.workspace)
    && !EqualFold(Trim(r.workspace), "default")
  }

  ghost function Provision(o: Org, r: Request, down: Outage): (Org, Provisioned) {
    if WantsRealGrant(r) then RealGrant(o, Trim(r.owner), Trim(r.workspace), r.spec, down)
    else (o, Issued(RecordAccess(r.digest)))
  }

  /** The text of a failed call speaks of billing: the refusal to remove a billing user does,
      and so may any other. */
  predicate MentionsBilling(e: Error) {
    e == BillingMember || (e.Unavailable? && Contains(Lower(e.text), "billing"))
  }

  /** Undoing a membership: remove it; if that fails with a text that mentions billing, reset
      it to the inherited role. */
  function Withdraw(o: Org, ws: string, user: string, down: Outage): (Org, Reply) {
    if ws == "" || user == "" then (o, Failed(MissingIds))
    else
      var (o1, reply) := DeleteMember(o, (ws, user), down);
      if reply.Failed? && MentionsBilling(reply.error) then PostRole(o1, (ws, user), "workspace_billing", down)
      else (o1, reply)
  }

  function Revoke(o: Org, id: string, down: Outage): (Org, Reply) {
    match Decode(id)
    case Missing => (o, Failed(MissingAccessId))
    case MalformedMembership => (o, Failed(MalformedAccessId))
    case Membership(ws, user) => Withdraw(o, ws, user, down)
    case Invitation(invite) => RemoveInvite(o, invite, down)
    case NothingUpstream => (o, Done)
  }

  // --------------------------------------------------------------------- the provider

  class Provider {
    var org: Org

    constructor (o: Org)
      ensures org == o
    {
      org := o;
    }

    /** Add the member, switching to a role update when it is one already: an upsert. */
    method GrantWorkspaceAccess(ws: string, user: string, role: string, down: Outage) returns (reply: Reply)
      modifies this
      ensures reply == Answer(GrantFailure(old(org), ws, user, role, down))
      ensures org == if reply.Done? then old(org).(members := old(org).members[(ws, user) := role]) else old(org)
    {
      if ws == "" || user == "" {
        return Failed(MissingIds);
      }
      if down(GetUser).Some? {
        return Failed(Unavailable(down(GetUser).value));
      }
      var u := FindUser(org.users, user);
      if u.None? {
        return Failed(NotFound);
      }
      if !RoleComboAllowed(u.value.role, role) {
        return Failed(RoleNotAllowed);
      }
      var (added, r) := PostMember(org, (ws, user), role, down);
      org, reply := added, r;
      if reply == Failed(AlreadyMember) {
        var (updated, r2) := PostRole(org, (ws, user), role, down);
        org, reply := updated, r2;
      }
    }

    method GrantRealAccess(email: string, ref: string, spec: Option<string>, down: Outage) returns (result: Provisioned)
      requires ValidOrg(org)
      modifies this
      ensures (org, result) == RealGrant(old(org), email, ref, spec, down)
    {
      hide ValidOrg, DistinctIds, FindUser, EqualFold, Blank, Trim, PagesFetched;
      assert DistinctIds(org.users, UserId) && DistinctIds(org.workspaces, WorkspaceId) by {
        ValidOrgListings(org);
      }
      var users := AdminList(org.users, UserId, UserPages(down));
      if users.None? {
        return Refused(ListingFailed);
      }
      var user := SearchByEmail(users.value, email);
      if user.None? {
        var (invited, r) := PostInvite(org, email, down);
        org, result := invited, r;
        return;
      }
      var workspaces := AdminList(org.workspaces, WorkspaceId, WorkspacePages(down));
      if workspaces.None? {
        return Refused(ListingFailed);
      }
      var w := SearchNamed(workspaces.value, ref);
      if w.None? {
        return Refused(NoActiveWorkspace);
      }
      var role := RequestedRole(spec);
      if !RoleComboAllowed(user.value.role, role) {
        if user.value.role == "billing" {
          role := "workspace_admin";
        } else {
          return Refused(RoleNotAllowed);
        }
      }
      var reply := GrantWorkspaceAccess(w.value.id, user.value.id, role, down);
      if reply.Failed? {
        return Refused(reply.error);
      }
      result := Issued(WorkspaceAccess(w.value.id, user.value.id));
    }

    method ProvisionAccess(r: Request, down: Outage) returns (result: Provisioned)
      requires ValidOrg(org)
      modifies this
      ensures (org, result) == Provision(old(org), r, down)
    {
      hide ValidOrg, RealGrant;
      var grantee, ws := Trim(r.owner), Trim(r.workspace);
      if Trim(r.adminKey) != "" && '@' in grantee && ws != "" && !EqualFold(ws, "default") {
        result := GrantRealAccess(grantee, ws, r.spec, down);
      } else {
        result := Issued(RecordAccess(r.digest));
      }
    }

    method RevokeAccess(id: string, down: Outage) returns (reply: Reply)
      modifies this
      ensures (org, reply) == Revoke(old(org), id, down)
    {
      hide IndexFrom;
      if id == "" {
        return Failed(MissingAccessId);
      }
      if HasPrefix(id, WS_PREFIX) {
        var rest := id[|WS_PREFIX|..];
        var at := IndexFrom(rest, USER_MARK, 0);
        if at.None? {
          return Failed(MalformedAccessId);
        }
        var ws, user := rest[..at.value], rest[at.value + |USER_MARK|..];
        if ws == "" || user == "" {
          return Failed(MissingIds);
        }
        var (removed, r) := DeleteMember(org, (ws, user), down);
        org, reply := removed, r;
        if reply.Failed? && MentionsBilling(reply.error) {
          var (reset, r2) := PostRole(org, (ws, user), "workspace_billing", down);
          org, reply := reset, r2;
        }
      } else if HasPrefix(id, INVITE_PREFIX) {
        var (removed, r) := RemoveInvite(org, id[|INVITE_PREFIX|..], down);
        org, reply := removed, r;
      } else {
        reply := Done;
      }
    }
  }

  method SearchByEmail(users: seq<OrgUser>, email: string) returns (user: Option<OrgUser>)
    ensures user == FirstByEmail(users, email)
  {
    for i := 0 to |users|
      invariant FirstByEmail(users, email) == FirstByEmail(users[i..], email)
    {
      assert users[i..][1..] == users[i + 1..];
      if EqualFold(users[i].email, email) {
        return Some(users[i]);
      }
    }
    user := None;
  }

  method SearchNamed(workspaces: seq<Workspace>, ref: string) returns (workspace: Option<Workspace>)
    ensures workspace == FirstNamed(workspaces, ref)
  {
    for i := 0 to |workspaces|
      invariant FirstNamed(workspaces, ref) == FirstNamed(workspaces[i..], ref)
    {
      var w := workspaces[i];
      assert workspaces[i..][1..] == workspaces[i + 1..];
      if w.archivedAt == "" && (EqualFold(w.name, ref) || w.id == ref) {
        return Some(w);
      }
    }
    workspace := None;
  }

  lemma ValidOrgListings(o: Org)
    requires ValidOrg(o)
    ensures DistinctIds(o.users, UserId) && DistinctIds(o.workspaces, WorkspaceId)
  {
  }

  // ------------------------------------------- what grants and revocations bring about

  lemma {:induction false} FoundById(users: seq<OrgUser>, u: OrgUser)
    requires u in users
    requires forall i, j :: 0 <= i < j < |users| ==> UserId(users[i]) != UserId(users[j])
    ensures FindUser(users, u.id) == Some(u)
  {
    if users[0] != u {
      var k :| 0 <= k < |users| && users[k] == u;
      assert UserId(users[0]) != UserId(users[k]);
      assert users[1..][k - 1] == u;
      FoundById(users[1..], u);
    }
  }

  lemma {:induction false} FoundByEmail(users: seq<OrgUser>, email: string)
    ensures var u := FirstByEmail(users, email);
            if u.Some? then u.value in users && EqualFold(u.value.email, email)
            else forall v :: v in users ==> !EqualFold(v.email, email)
  {
    hide EqualFold;
    if users != [] {
      FoundByEmail(users[1..], email);
      assert users == [users[0]] + users[1..];
    }
  }

  lemma {:induction false} FoundNamed(workspaces: seq<Workspace>, ref: string)
    ensures var w := FirstNamed(workspaces, ref);
            if w.Some? then w.value in workspaces && Named(w.value, ref)
            else forall v :: v in workspaces ==> !Named(v, ref)
  {
    hide Named;
    if workspaces != [] {
      FoundNamed(workspaces[1..], ref);
      assert workspaces == [workspaces[0]] + workspaces[1..];
    }
  }

  /** The role a request brings a user: workspace_admin for a billing user, for any other
      the role it asks for, workspace_developer if it asks for none; the inherited
      workspace_billing is never given. */
  predicate RoleFits(orgRole: string, spec: Option<string>, role: string) {
    && role == (if orgRole == "billing" then "workspace_admin"
                else if spec.Some? && Trim(spec.value) != "" then Trim(spec.value)
                else "workspace_developer")
    && role != "workspace_billing"
  }

  /** A membership that a request may bring about: a user with the owner's address, a
      workspace of the given name or id that is not archived, and the role that fits. */
  ghost predicate Entitled(o: Org, r: Request, ws: string, user: string, role: string) {
    exists u, w ::
      && u in o.users && u.id == user && EqualFold(u.email, Trim(r.owner))
      && w in o.workspaces && w.id == ws && Reachable(w, Trim(r.workspace))
      && RoleFits(u.role, r.spec, role)
  }

  ghost predicate Reachable(w: Workspace, ref: string) {
    w.archivedAt == "" && (EqualFold(w.name, ref) || w.id == ref)
  }

  ghost predicate Joined(o: Org, r: Request, after: Org, id: string) {
    exists ws, user, role ::
      && Entitled(o, r, ws, user, role)
      && id == WorkspaceAccess(ws, user)
      && after == MadeMember(o, (ws, user), role)
  }

  function MadeMember(o: Org, pair: Pair, role: string): Org {
    o.(members := o.members[pair := role])
  }

  function InvitedTo(o: Org, email: string): Org {
    o.(invites := o.invites[IdText(o.nextInvite) := email], nextInvite := o.nextInvite + 1)
  }

  /** Falling back to workspace_admin for a billing user comes to the role that fits, and
      the matrix refuses exactly when none does. */
  lemma RoleChosen(orgRole: string, spec: Option<string>)
    ensures var role := GivenRole(orgRole, RequestedRole(spec));
            && (RoleComboAllowed(orgRole, role) <==> RoleFits(orgRole, spec, role))
            && (orgRole == "billing" ==> RoleFits(orgRole, spec, role))
            && (orgRole != "billing" ==>
                  (RoleFits(orgRole, spec, role) <==> spec.None? || Trim(spec.value) != "workspace_billing"))
  {
    hide Trim;
  }

  /** A planned membership is one the request is entitled to. */
  lemma {:induction false} JoinIsEntitled(o: Org, r: Request, down: Outage, ws: string, user: string, role: string)
    requires ValidOrg(o)
    requires PlanGrant(o, Trim(r.owner), Trim(r.workspace), r.spec, down) == Join(ws, user, role)
    ensures Entitled(o, r, ws, user, role)
    ensures FindUser(o.users, user).Some? && RoleComboAllowed(OrgRole(o, user), role)
  {
    hide Trim, EqualFold, RoleFits, RoleComboAllowed, FindUser, Blank, GivenRole, RequestedRole, ListingFails;
    var u := FirstByEmail(Listed(o.users), Trim(r.owner)).value;
    var w := FirstNamed(Listed(o.workspaces), Trim(r.workspace)).value;
    RoleChosen(u.role, r.spec);
    FoundByEmail(Listed(o.users), Trim(r.owner));
    FoundNamed(Listed(o.workspaces), Trim(r.workspace));
    assert u in o.users && w in o.workspaces;
    FoundById(o.users, u);
  }

  /** Provisioning grants for real exactly if an admin key is configured, the owner is an
      address and the workspace is a name other than the placeholder. It then changes nothing
      but one membership the request is entitled to, or one new invite to the owner's address
      when no listed user has it; what it issues says which, and a refusal changes nothing. */
  lemma {:induction false} ProvisionReaches(o: Org, r: Request, down: Outage)
    requires ValidOrg(o)
    ensures var (after, result) := Provision(o, r, down);
            var owner, workspace := Trim(r.owner), Trim(r.workspace);
            var named := workspace != "" && !EqualFold(workspace, "default");
            var attempted := Trim(r.adminKey) != "" && '@' in owner && named;
            match result
            case Refused(_) => attempted && after == o
            case Issued(id) =>
              || (!attempted && after == o && id == RecordAccess(r.digest))
              || (attempted && after == InvitedTo(o, owner) && id == InviteAccess(IdText(o.nextInvite))
                  && forall u :: u in Listed(o.users) ==> !EqualFold(u.email, owner))
              || (attempted && Joined(o, r, after, id))
  {
    assert WantsRealGrant(r) <==> Trim(r.adminKey) != "" && '@' in Trim(r.owner) && Trim(r.workspace) != ""
                                  && !EqualFold(Trim(r.workspace), "default");
    hide Trim, EqualFold, Entitled, Listed, FindUser, OrgRole, ValidOrg, RoleComboAllowed, WantsRealGrant;
    if WantsRealGrant(r) {
      var plan := PlanGrant(o, Trim(r.owner), Trim(r.workspace), r.spec, down);
      hide ListingFails, RequestedRole, FirstByEmail, FirstNamed, GivenRole;
      if plan.Join? {
        JoinIsEntitled(o, r, down, plan.ws, plan.user, plan.role);
      } else if plan.Invite? {
        FoundByEmail(Listed(o.users), Trim(r.owner));
      }
    }
  }

  ghost predicate IdsFilled(o: Org) {
    (forall u :: u in o.users ==> u.id != "") && (forall w :: w in o.workspaces ==> w.id != "")
  }

  /** With every call up, a real grant to the one listed user with the owner's address goes
      through exactly if a listed workspace goes by the name or id, is not archived, and the
      role asked for is not the inherited one (which a billing user is not held to): the user
      then holds the role that fits, also where another was held before. */
  lemma {:induction false} GrantGoesThrough(o: Org, r: Request, down: Outage, u: OrgUser)
    requires ValidOrg(o) && IdsFilled(o) && WantsRealGrant(r) && forall c :: down(c).None?
    requires u in Listed(o.users)
    requires forall v :: v in Listed(o.users) ==> (EqualFold(v.email, Trim(r.owner)) <==> v == u)
    ensures var (after, result) := Provision(o, r, down);
            && (result.Issued? <==>
                  && (u.role == "billing" || r.spec.None? || Trim(r.spec.value) != "workspace_billing")
                  && exists w :: w in Listed(o.workspaces) && Reachable(w, Trim(r.workspace)))
            && (result.Issued? ==> exists w, role ::
                  && w in Listed(o.workspaces) && Reachable(w, Trim(r.workspace)) && RoleFits(u.role, r.spec, role)
                  && after == MadeMember(o, (w.id, u.id), role))
  {
    hide Trim, EqualFold, Named, Reachable, RoleFits, RoleComboAllowed, FindUser, Blank, GivenRole, RequestedRole,
         Listed;
    var email, ref := Trim(r.owner), Trim(r.workspace);
    var found, w := FirstByEmail(Listed(o.users), email), FirstNamed(Listed(o.workspaces), ref);
    NoOutageNoFailure(o, down);
    FoundByEmail(Listed(o.users), email);
    FoundNamed(Listed(o.workspaces), ref);
    NamedIsReachable(ref);
    RoleChosen(u.role, r.spec);
    assert u in o.users by { ListedFromHere(o.users, u); }
    FoundById(o.users, u);
    if w.Some? {
      ListedFromHere(o.workspaces, w.value);
    }
  }

  lemma NamedIsReachable(ref: string)
    ensures forall w :: Named(w, ref) <==> Reachable(w, ref)
  {
  }

  lemma ListedFromHere<T>(items: seq<T>, x: T)
    requires x in Listed(items)
    ensures x in items
  {
  }

  lemma NoOutageNoFailure(o: Org, down: Outage)
    requires forall c :: down(c).None?
    ensures !ListingFails(|o.users|, UserPages(down)) && !ListingFails(|o.workspaces|, WorkspacePages(down))
  {
  }

  /** A membership withdrawn: gone, or the inherited role for a billing user. */
  function Withdrawn(o: Org, pair: Pair): Org {
    if OrgRole(o, pair.1) == "billing" then MadeMember(o, pair, "workspace_billing")
    else o.(members := o.members - {pair})
  }

  /** Whatever happened to the organization since the grant, revoking its id withdraws
      exactly the granted pair, provided the workspace id is unambiguous. */
  lemma {:induction false} RevokeUndoesGrant(ws: string, user: string, later: Org, down: Outage)
    requires ws != "" && user != "" && Unambiguous(ws)
    requires (ws, user) in later.members && down(RemoveMember).None? && down(UpdateMember).None?
    ensures Revoke(later, WorkspaceAccess(ws, user), down) == (Withdrawn(later, (ws, user)), Done)
  {
    hide Unambiguous, OrgRole, Decode;
    WorkspaceAccessRoundTrip(ws, user);
  }

  /** A pair without an explicit membership; for a billing user, with the inherited role. */
  predicate NothingToLose(o: Org, pair: Pair) {
    if OrgRole(o, pair.1) == "billing" then pair in o.members && o.members[pair] == "workspace_billing"
    else pair !in o.members
  }

  /** Granting and at once revoking gives back the organization exactly when the user had no
      explicit membership before (a billing user: had the inherited role explicitly). An
      earlier membership with another role is overwritten by the grant and then lost. */
  lemma {:induction false} GrantThenRevoke(o: Org, ws: string, user: string, role: string, down: Outage)
    requires ws != "" && user != "" && Unambiguous(ws)
    requires down(RemoveMember).None? && down(UpdateMember).None?
    ensures var (after, reply) := Revoke(MadeMember(o, (ws, user), role), WorkspaceAccess(ws, user), down);
            && reply.Done?
            && (after == o <==> NothingToLose(o, (ws, user)))
  {
    hide Unambiguous, FindUser, Decode;
    var granted := MadeMember(o, (ws, user), role);
    RevokeUndoesGrant(ws, user, granted, down);
    var after := Withdrawn(granted, (ws, user));
    if OrgRole(o, user) == "billing" {
      assert after.members == o.members[(ws, user) := "workspace_billing"];
      assert (ws, user) in after.members && after.members[(ws, user)] == "workspace_billing";
    } else {
      assert (ws, user) !in after.members;
      assert (ws, user) !in o.members ==> after.members == o.members;
    }
  }

  lemma {:induction false} FreshInvite(o: Org)
    requires ValidOrg(o)
    ensures IdText(o.nextInvite) !in o.invites
  {
    if IdText(o.nextInvite) in o.invites {
      var k: nat :| k < o.nextInvite && IdText(o.nextInvite) == IdText(k);
      DecimalInjective(k, o.nextInvite);
    }
  }

  /** Revoking a pending invite leaves no trace but a used invite number. */
  lemma {:induction false} InviteThenRevoke(o: Org, email: string, down: Outage)
    requires ValidOrg(o) && down(DeleteInvite).None?
    ensures Revoke(InvitedTo(o, email), InviteAccess(IdText(o.nextInvite)), down)
         == (o.(nextInvite := o.nextInvite + 1), Done)
  {
    hide ValidOrg, Decode, IdText;
    FreshInvite(o);
    var d: Digest := "0000000000000000";
    OtherFormsRoundTrip(IdText(o.nextInvite), d);
    assert InvitedTo(o, email).invites - {IdText(o.nextInvite)} == o.invites;
  }

  /** Revoking any id whatever changes at most the one pair or invite it decodes to, and
      nothing at all when it fails or when the id is a governance-only record. */
  lemma {:induction false} RevokeTouchesItsTarget(o: Org, id: string, down: Outage, pair: Pair, invite: string)
    ensures var (after, reply) := Revoke(o, id, down);
            && after.users == o.users && after.workspaces == o.workspaces && after.nextInvite == o.nextInvite
            && (reply.Failed? || Decode(id).NothingUpstream? ==> after == o)
            && (Decode(id) != Membership(pair.0, pair.1) ==> SameAt(after.members, o.members, pair))
            && (Decode(id) != Invitation(invite) ==> SameAt(after.invites, o.invites, invite))
  {
    hide Decode, OrgRole;
  }

  predicate SameAt<K, V(==)>(a: map<K, V>, b: map<K, V>, k: K) {
    if k in b then k in a && a[k] == b[k] else k !in a
  }

  // ------------------------------------------------------------------------- all runs

  datatype Event = Provisioning(request: Request, down: Outage) | Revoking(id: string, down: Outage)

  ghost function Step(o: Org, e: Event): Org {
    match e
    case Provisioning(r, down) => Provision(o, r, down).0
    case Revoking(id, down) => Revoke(o, id, down).0
  }

  ghost function Run(o: Org, es: seq<Event>): Org {
    if es == [] then o else Step(Run(o, es[..|es| - 1]), es[|es| - 1])
  }

  /** Every explicit membership is one the role matrix allows, or a billing user's reset to
      the inherited role. */
  ghost predicate MatrixKept(o: Org) {
    forall pair :: pair in o.members ==> RoleKept(OrgRole(o, pair.1), o.members[pair])
  }

  lemma {:induction false} InviteKeepsValid(o: Org, email: string)
    requires ValidOrg(o)
    ensures ValidOrg(InvitedTo(o, email))
  {
    hide DistinctIds, IdText;
    var after := InvitedTo(o, email);
    forall id | id in after.invites ensures exists k: nat :: k < after.nextInvite && id == IdText(k) {
      if id in o.invites {
        var k: nat :| k < o.nextInvite && id == IdText(k);
        assert k < after.nextInvite;
      } else {
        assert id == IdText(o.nextInvite);
      }
    }
  }

  lemma {:induction false} ProvisionKeepsMatrix(o: Org, r: Request, down: Outage)
    requires ValidOrg(o) && MatrixKept(o)
    ensures var after := Provision(o, r, down).0;
            ValidOrg(after) && MatrixKept(after) && after.users == o.users && after.workspaces == o.workspaces
  {
    hide Trim, WantsRealGrant, PlanGrant, RoleComboAllowed, FindUser, DistinctIds, IdText;
    if WantsRealGrant(r) {
      var plan := PlanGrant(o, Trim(r.owner), Trim(r.workspace), r.spec, down);
      if plan.Invite? {
        InviteKeepsValid(o, Trim(r.owner));
      } else if plan.Join? {
        JoinIsEntitled(o, r, down, plan.ws, plan.user, plan.role);
      }
    }
  }

  lemma {:induction false} RevokeKeepsMatrix(o: Org, id: string, down: Outage)
    requires ValidOrg(o) && MatrixKept(o)
    ensures var after := Revoke(o, id, down).0;
            ValidOrg(after) && MatrixKept(after) && after.users == o.users && after.workspaces == o.workspaces
  {
    hide Decode, RoleComboAllowed, FindUser, DistinctIds, IdText;
  }

  /** Over any run of grants and revocations no membership the matrix forbids appears. */
  lemma {:induction false} RunKeepsMatrix(o: Org, es: seq<Event>)
    requires ValidOrg(o) && MatrixKept(o)
    ensures var after := Run(o, es);
            ValidOrg(after) && MatrixKept(after) && after.users == o.users && after.workspaces == o.workspaces
  {
    hide ValidOrg, MatrixKept, Provision, Revoke;
    if es != [] {
      var before, e := Run(o, es[..|es| - 1]), es[|es| - 1];
      RunKeepsMatrix(o, es[..|es| - 1]);
      match e
      case Provisioning(r, down) => ProvisionKeepsMatrix(before, r, down);
      case Revoking(id, down) => RevokeKeepsMatrix(before, id, down);
    }
  }
}
