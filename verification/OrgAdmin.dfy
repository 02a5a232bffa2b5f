/** The organization's admin API as the provider reads it: paged listing and the computed
    effective access to a workspace. */
module OrgAdmin {
  import opened Text

  // --------------------------------------------------------------------- pagination

  const PAGE_SIZE := 100
  const MAX_PAGES := 50

  datatype Page<T> = Page(data: seq<T>, hasMore: bool, lastId: string)

  /** Position just after the item with this id; past the end if there is none. */
  function After<T>(items: seq<T>, idOf: T -> string, id: string): nat {
    if items == [] then 0
    else if idOf(items[0]) == id then 1
    else 1 + After(items[1..], idOf, id)
  }

  function Min(a: nat, b: nat): nat { if a < b then a else b }

  /** The endpoint: the first hundred items after the cursor, all items standing in a
      fixed order. */
  function ListPage<T>(items: seq<T>, idOf: T -> string, cursor: string): Page<T> {
    var from := Min(if cursor == "" then 0 else After(items, idOf, cursor), |items|);
    var data := items[from..Min(from + PAGE_SIZE, |items|)];
    Page(data, from + PAGE_SIZE < |items|, if data == [] then "" else idOf(data[|data| - 1]))
  }

  ghost predicate DistinctIds<T>(items: seq<T>, idOf: T -> string) {
    && (forall i, j :: 0 <= i < j < |items| ==> idOf(items[i]) != idOf(items[j]))
    && forall i :: 0 <= i < |items| ==> !Blank(idOf(items[i]))
  }

  lemma {:induction false} AfterIsNext<T>(items: seq<T>, idOf: T -> string, k: nat)
    requires k < |items|
    requires forall i, j :: 0 <= i < j < |items| ==> idOf(items[i]) != idOf(items[j])
    ensures After(items, idOf, idOf(items[k])) == k + 1
  {
    if k > 0 {
      assert idOf(items[0]) != idOf(items[k]);
      assert items[1..][k - 1] == items[k];
      AfterIsNext(items[1..], idOf, k - 1);
    }
  }

  /** How many pages a listing of n items fetches. */
  function PagesFetched(n: nat): nat {
    if n == 0 then 1 else Min((n + PAGE_SIZE - 1) / PAGE_SIZE, MAX_PAGES)
  }

  lemma PageBoundary(n: nat, page: nat)
    ensures PagesFetched(n) > 0
    ensures page * PAGE_SIZE + PAGE_SIZE < n && page + 1 < MAX_PAGES ==> page + 1 < PagesFetched(n)
    ensures (page == 0 || page * PAGE_SIZE < n) && n <= page * PAGE_SIZE + PAGE_SIZE && page < MAX_PAGES ==>
              PagesFetched(n) == page + 1
    ensures n > (MAX_PAGES - 1) * PAGE_SIZE ==> PagesFetched(n) == MAX_PAGES
  {
  }

  ghost predicate ListingFails(n: nat, outage: nat -> bool) {
    exists k :: 0 <= k < PagesFetched(n) && outage(k)
  }

  /** The cursor with which page number `page` is asked for. */
  function Cursor<T>(items: seq<T>, idOf: T -> string, page: nat): string
    requires page == 0 || page * PAGE_SIZE <= |items|
  {
    if page == 0 then "" else idOf(items[page * PAGE_SIZE - 1])
  }

  /** What the endpoint answers to that cursor: the next hundred items, whether any remain,
      and a usable next cursor if they do. */
  lemma {:induction false} PageIsNextHundred<T>(items: seq<T>, idOf: T -> string, page: nat)
    requires DistinctIds(items, idOf)
    requires page == 0 || page * 100 < |items|
    ensures var got := ListPage(items, idOf, Cursor(items, idOf, page));
            && got.data == items[page * 100..Min(page * 100 + 100, |items|)]
            && got.hasMore == (page * 100 + 100 < |items|)
            && (got.hasMore ==> !Blank(got.lastId) && got.lastId == Cursor(items, idOf, page + 1))
  {
    hide Blank;
    if page > 0 {
      assert Cursor(items, idOf, page) != "" by {
        BlankEmpty();
      }
      AfterIsNext(items, idOf, page * PAGE_SIZE - 1);
    }
    var data := items[page * PAGE_SIZE..Min(page * PAGE_SIZE + PAGE_SIZE, |items|)];
    assert ListPage(items, idOf, Cursor(items, idOf, page)).data == data;
    if page * PAGE_SIZE + PAGE_SIZE < |items| {
      assert data[|data| - 1] == items[page * PAGE_SIZE + PAGE_SIZE - 1];
    }
  }

  lemma BlankEmpty()
    ensures Blank("")
  {
  }

  lemma TakeMore<T>(items: seq<T>, i: nat, j: nat)
    requires i <= j <= |items|
    ensures items[..i] + items[i..j] == items[..j]
  {
  }

  /** Against an endpoint whose items have distinct, non-blank ids the listing returns the
      first five thousand items in order; it fails exactly if one of the pages it needs
      cannot be fetched. */
  method AdminList<T>(items: seq<T>, idOf: T -> string, outage: nat -> bool) returns (all: Option<seq<T>>)
    requires DistinctIds(items, idOf)
    ensures all.Some? ==> all.value == if |items| <= 5000 then items else items[..5000]
    ensures all.None? == ListingFails(|items|, outage)
  {
    hide ListPage, After, Blank, DistinctIds, PagesFetched;
    var got: seq<T> := [];
    var after := "";
    var page := 0;
    PageBoundary(|items|, 0);
    while page < MAX_PAGES
      invariant 0 <= page <= MAX_PAGES
      invariant page * PAGE_SIZE < |items| || page == 0
      invariant got == items[..page * PAGE_SIZE]
      invariant after == Cursor(items, idOf, page)
      invariant forall k :: 0 <= k < page ==> !outage(k)
      invariant if page < MAX_PAGES then page < PagesFetched(|items|) else PagesFetched(|items|) == MAX_PAGES
    {
      if outage(page) {
        return None;
      }
      PageIsNextHundred(items, idOf, page);
      PageBoundary(|items|, page);
      var payload := ListPage(items, idOf, after);
      TakeMore(items, page * PAGE_SIZE, Min(page * PAGE_SIZE + PAGE_SIZE, |items|));
      got := got + payload.data;
      if !payload.hasMore || Blank(payload.lastId) {
        return Some(got);
      }
      after := payload.lastId;
      page := page + 1;
    }
    all := Some(got);
  }

  // --------------------------------------------------------------- effective access

  datatype OrgUser = OrgUser(id: string, email: string, role: string)
  datatype Member = Member(userId: string, role: string)
  datatype Access = Access(userId: string, email: string, orgRole: string, role: string, inherited: bool)

  function UserId(u: OrgUser): string { u.id }
  function MemberId(m: Member): string { m.userId }

  /** The workspace role an org role carries everywhere, or none. */
  function InheritedRole(orgRole: string): string {
    if orgRole == "admin" then "workspace_admin"
    else if orgRole == "billing" then "workspace_billing"
    else ""
  }

  function ById(users: seq<OrgUser>): map<string, OrgUser> {
    if users == [] then map[]
    else ById(users[..|users| - 1])[users[|users| - 1].id := users[|users| - 1]]
  }

  function ExplicitEntry(m: Member, users: map<string, OrgUser>): Access {
    if m.userId in users then Access(m.userId, users[m.userId].email, users[m.userId].role, m.role, false)
    else Access(m.userId, "", "", m.role, false)
  }

  function ExplicitAccess(members: seq<Member>, users: map<string, OrgUser>): (r: seq<Access>)
    ensures |r| == |members| && forall i :: 0 <= i < |members| ==> r[i] == ExplicitEntry(members[i], users)
  {
    seq(|members|, i requires 0 <= i < |members| => ExplicitEntry(members[i], users))
  }

  function MemberIds(members: seq<Member>): set<string> {
    set m | m in members :: m.userId
  }

  function InheritedAccess(users: seq<OrgUser>, explicit: set<string>): seq<Access> {
    if users == [] then []
    else
      var u, rest := users[0], InheritedAccess(users[1..], explicit);
      if u.id in explicit || InheritedRole(u.role) == "" then rest
      else [Access(u.id, u.email, u.role, InheritedRole(u.role), true)] + rest
  }

  function EffectiveAccess(members: seq<Member>, users: seq<OrgUser>): seq<Access> {
    ExplicitAccess(members, ById(users)) + InheritedAccess(users, MemberIds(members))
  }

  method IndexById(users: seq<OrgUser>) returns (byId: map<string, OrgUser>)
    ensures byId == ById(users)
  {
    byId := map[];
    for i := 0 to |users|
      invariant byId == ById(users[..i])
    {
      assert users[..i + 1][..i] == users[..i];
      byId := byId[users[i].id := users[i]];
    }
    assert users[..|users|] == users;
  }

  method CollectExplicit(members: seq<Member>, byId: map<string, OrgUser>)
    returns (access: seq<Access>, explicit: set<string>)
    ensures access == ExplicitAccess(members, byId)
    ensures explicit == MemberIds(members)
  {
    access, explicit := [], {};
    for i := 0 to |members|
      invariant |access| == i && forall k :: 0 <= k < i ==> access[k] == ExplicitEntry(members[k], byId)
      invariant explicit == MemberIds(members[..i])
    {
      var m := members[i];
      assert members[..i + 1] == members[..i] + [m];
      explicit := explicit + {m.userId};
      var entry := Access(m.userId, "", "", m.role, false);
      if m.userId in byId {
        entry := entry.(email := byId[m.userId].email, orgRole := byId[m.userId].role);
      }
      access := access + [entry];
    }
    assert members[..|members|] == members;
  }

  method CollectInherited(users: seq<OrgUser>, explicit: set<string>) returns (access: seq<Access>)
    ensures access == InheritedAccess(users, explicit)
  {
    access := [];
    for i := 0 to |users|
      invariant access + InheritedAccess(users[i..], explicit) == InheritedAccess(users, explicit)
    {
      var u := users[i];
      assert users[i..][1..] == users[i + 1..];
      if u.id in explicit {
        continue;
      }
      var inherited := InheritedRole(u.role);
      if inherited != "" {
        access := access + [Access(u.id, u.email, u.role, inherited, true)];
      }
    }
  }

  /** What a listing returns: the first five thousand items. */
  function Listed<T>(items: seq<T>): (r: seq<T>)
    ensures |items| <= 5000 ==> r == items
    ensures |items| > 5000 ==> r == items[..5000]
  {
    items[..Min(|items|, MAX_PAGES * PAGE_SIZE)]
  }

  /** The computed set is the effective access of the listed members and users. */
  method EffectiveWorkspaceAccess(workspace: string, memberRows: seq<Member>, userRows: seq<OrgUser>,
                                  memberOutage: nat -> bool, userOutage: nat -> bool)
    returns (access: Option<seq<Access>>)
    requires DistinctIds(memberRows, MemberId) && DistinctIds(userRows, UserId)
    ensures access.Some? ==> access.value == EffectiveAccess(Listed(memberRows), Listed(userRows))
    ensures access.None? == (Blank(workspace) || ListingFails(|memberRows|, memberOutage)
                             || ListingFails(|userRows|, userOutage))
  {
    hide Blank, DistinctIds, PagesFetched, ExplicitAccess, InheritedAccess, ById, MemberIds;
    if Blank(workspace) {
      return None;
    }
    var members := AdminList(memberRows, MemberId, memberOutage);
    if members.None? {
      return None;
    }
    var users := AdminList(userRows, UserId, userOutage);
    if users.None? {
      return None;
    }
    var byId := IndexById(users.value);
    var direct, explicit := CollectExplicit(members.value, byId);
    var inherited := CollectInherited(users.value, explicit);
    access := Some(direct + inherited);
  }

  ghost predicate InheritsAs(a: Access, u: OrgUser, explicit: set<string>) {
    && u.id !in explicit && InheritedRole(u.role) != ""
    && a == Access(u.id, u.email, u.role, InheritedRole(u.role), true)
  }

  lemma {:induction false} InheritedExact(users: seq<OrgUser>, explicit: set<string>, a: Access)
    ensures a in InheritedAccess(users, explicit) <==> exists u :: u in users && InheritsAs(a, u, explicit)
  {
    if users != [] {
      InheritedExact(users[1..], explicit, a);
      assert users == [users[0]] + users[1..];
      assert a in InheritedAccess(users, explicit)
        <==> InheritsAs(a, users[0], explicit) || a in InheritedAccess(users[1..], explicit);
      forall u | u in users[1..] ensures u in users {
      }
    }
  }

  /** The index by id finds each listed user and nobody else, so a member's entry carries
      that user's address and org role. */
  lemma {:induction false} ByIdExact(users: seq<OrgUser>, id: string)
    requires forall i, j :: 0 <= i < j < |users| ==> UserId(users[i]) != UserId(users[j])
    ensures id in ById(users) <==> exists u :: u in users && u.id == id
    ensures forall u :: u in users && u.id == id ==> ById(users)[id] == u
  {
    if users != [] {
      var n := |users| - 1;
      ByIdExact(users[..n], id);
      assert users == users[..n] + [users[n]];
      forall u | u in users[..n] ensures u.id != users[n].id {
        var k :| 0 <= k < n && users[k] == u;
        assert UserId(users[k]) != UserId(users[n]);
      }
    }
  }

  /** The entry of a member: the explicit role, and the address and org role of the user with
      that id, if one is listed. */
  ghost predicate IsExplicitly(a: Access, m: Member, users: seq<OrgUser>) {
    && a.userId == m.userId && a.role == m.role && !a.inherited
    && (forall u :: u in users && u.id == m.userId ==> a.email == u.email && a.orgRole == u.role)
    && ((forall u :: u in users ==> u.id != m.userId) ==> a.email == "" && a.orgRole == "")
  }

  /** The entry of a user who is no member: admins hold workspace_admin everywhere, billing
      users workspace_billing. */
  ghost predicate IsInheritedly(a: Access, u: OrgUser, members: seq<Member>) {
    && (forall m :: m in members ==> m.userId != u.id)
    && a.userId == u.id && a.email == u.email && a.orgRole == u.role && a.inherited
    && ((u.role == "admin" && a.role == "workspace_admin") || (u.role == "billing" && a.role == "workspace_billing"))
  }

  /** Who is on the list: every explicit member with the explicit role, every other user
      whose org role carries one with that role, and nobody else. */
  lemma EffectiveAccessExact(members: seq<Member>, users: seq<OrgUser>, a: Access)
    requires DistinctIds(users, UserId)
    ensures a in EffectiveAccess(members, users) <==>
      || (exists m :: m in members && IsExplicitly(a, m, users))
      || (exists u :: u in users && IsInheritedly(a, u, members))
  {
    forall m | m in members ensures a == ExplicitEntry(m, ById(users)) <==> IsExplicitly(a, m, users) {
      IndexKnows(users, m.userId);
    }
    forall u | u in users ensures IsInheritedly(a, u, members) <==> InheritsAs(a, u, MemberIds(members)) {
    }
    hide IsExplicitly, IsInheritedly, DistinctIds, ById;
    var explicit := ExplicitAccess(members, ById(users));
    InheritedExact(users, MemberIds(members), a);
    if a in explicit {
      var i :| 0 <= i < |explicit| && explicit[i] == a;
      assert members[i] in members;
    }
    forall m | m in members ensures ExplicitEntry(m, ById(users)) in explicit {
      var i :| 0 <= i < |members| && members[i] == m;
      assert explicit[i] == ExplicitEntry(m, ById(users));
    }
  }

  /** The users beyond the listing matter to nobody: none of them inherits a role, and one
      who is a member has neither an address nor an org role to show. */
  predicate Negligible(members: seq<Member>, beyond: seq<OrgUser>) {
    forall u :: u in beyond ==>
      if u.id in MemberIds(members) then u.email == "" && u.role == "" else InheritedRole(u.role) == ""
  }

  lemma {:induction false} InheritedConcat(a: seq<OrgUser>, b: seq<OrgUser>, explicit: set<string>)
    ensures InheritedAccess(a + b, explicit) == InheritedAccess(a, explicit) + InheritedAccess(b, explicit)
  {
    if a == [] {
      assert a + b == b;
    } else {
      assert (a + b)[0] == a[0] && (a + b)[1..] == a[1..] + b;
      InheritedConcat(a[1..], b, explicit);
    }
  }

  /** All entries of the inherited part say so. */
  lemma {:induction false} InheritedMarked(users: seq<OrgUser>, explicit: set<string>)
    ensures forall a :: a in InheritedAccess(users, explicit) ==> a.inherited
  {
    if users != [] {
      InheritedMarked(users[1..], explicit);
    }
  }

  lemma DistinctParts(users: seq<OrgUser>, n: nat)
    requires DistinctIds(users, UserId) && n <= |users|
    ensures DistinctIds(users[..n], UserId)
    ensures forall u, v :: u in users[..n] && v in users[n..] ==> u.id != v.id
  {
    forall u, v | u in users[..n] && v in users[n..] ensures u.id != v.id {
      var i :| 0 <= i < n && users[i] == u;
      var j :| 0 <= j < |users[n..]| && users[n..][j] == v;
      assert UserId(users[i]) != UserId(users[n + j]);
    }
  }

  /** A member's entry is the same with and without the users beyond, exactly if the
      member is not one of them or has nothing to show. */
  lemma SameEntry(m: Member, users: seq<OrgUser>, n: nat)
    requires DistinctIds(users, UserId) && n <= |users|
    ensures ExplicitEntry(m, ById(users[..n])) == ExplicitEntry(m, ById(users))
       <==> forall u :: u in users[n..] && u.id == m.userId ==> u.email == "" && u.role == ""
  {
    hide ById, DistinctIds;
    var id, few, all := m.userId, ById(users[..n]), ById(users);
    DistinctParts(users, n);
    IndexKnows(users[..n], id);
    IndexKnows(users, id);
    MemberOfPart(users, n);
    hide ExplicitEntry;
    EntryOf(m, few);
    EntryOf(m, all);
    if id in few {
      assert few[id] in users[..n] && few[id].id == id;
      assert all[id] == few[id];
    } else if id in all {
      assert all[id] in users[n..] && all[id].id == id;
    }
  }

  lemma IndexKnows(users: seq<OrgUser>, id: string)
    requires DistinctIds(users, UserId)
    ensures id in ById(users) ==> ById(users)[id] in users && ById(users)[id].id == id
    ensures forall u :: u in users && u.id == id ==> id in ById(users) && ById(users)[id] == u
  {
    hide ById;
    ByIdExact(users, id);
  }

  lemma MemberOfPart(users: seq<OrgUser>, n: nat)
    requires n <= |users|
    ensures forall u :: u in users <==> u in users[..n] || u in users[n..]
  {
    assert users == users[..n] + users[n..];
  }

  lemma EntryOf(m: Member, users: map<string, OrgUser>)
    ensures ExplicitEntry(m, users).userId == m.userId && ExplicitEntry(m, users).role == m.role
    ensures !ExplicitEntry(m, users).inherited
    ensures ExplicitEntry(m, users).email == if m.userId in users then users[m.userId].email else ""
    ensures ExplicitEntry(m, users).orgRole == if m.userId in users then users[m.userId].role else ""
  {
  }

  /** Cutting the lists short changes nothing, exactly if no member is cut off and the users
      cut off are negligible. */
  lemma ListedAccessIsWhole(members: seq<Member>, users: seq<OrgUser>)
    requires DistinctIds(users, UserId)
    ensures EffectiveAccess(Listed(members), Listed(users)) == EffectiveAccess(members, users)
       <==> |members| <= MAX_PAGES * PAGE_SIZE && Negligible(members, users[|Listed(users)|..])
  {
    if |members| <= MAX_PAGES * PAGE_SIZE {
      assert Listed(members) == members;
      hide DistinctIds, MemberIds;
      UsersListedWhole(members, users, |Listed(users)|);
    } else {
      MemberCutOff(members, users);
    }
  }

  lemma MemberCutOff(members: seq<Member>, users: seq<OrgUser>)
    requires |members| > MAX_PAGES * PAGE_SIZE
    ensures EffectiveAccess(Listed(members), Listed(users)) != EffectiveAccess(members, users)
  {
    var n := MAX_PAGES * PAGE_SIZE;
    var cut, whole := EffectiveAccess(Listed(members), Listed(users)), EffectiveAccess(members, users);
    InheritedMarked(Listed(users), MemberIds(Listed(members)));
    assert whole[n] == ExplicitEntry(members[n], ById(users)) && !whole[n].inherited;
    hide ExplicitEntry, ById, MemberIds;
    if |cut| > n {
      assert cut[n] == InheritedAccess(Listed(users), MemberIds(Listed(members)))[0];
    }
  }

  lemma UsersListedWhole(members: seq<Member>, users: seq<OrgUser>, n: nat)
    requires DistinctIds(users, UserId) && n <= |users|
    ensures EffectiveAccess(members, users[..n]) == EffectiveAccess(members, users) <==> Negligible(members, users[n..])
  {
    var explicit := MemberIds(members);
    var few, all := ExplicitAccess(members, ById(users[..n])), ExplicitAccess(members, ById(users));
    var near, far := InheritedAccess(users[..n], explicit), InheritedAccess(users[n..], explicit);
    assert users == users[..n] + users[n..];
    InheritedConcat(users[..n], users[n..], explicit);
    assert few + near == all + (near + far) <==> few == all && far == [] by {
      assert |few| == |all|;
      assert (few + near)[..|few|] == few && (all + (near + far))[..|few|] == all;
      assert (few + near)[|few|..] == near && (all + (near + far))[|few|..] == near + far;
    }
    NobodyBeyond(users[n..], explicit);
    hide InheritedAccess, InheritedRole, ById, ExplicitEntry, DistinctIds;
    if few == all && far == [] {
      forall u | u in users[n..] && u.id in explicit ensures u.email == "" && u.role == "" {
        var i :| 0 <= i < |members| && members[i].userId == u.id;
        assert few[i] == all[i];
        SameEntry(members[i], users, n);
      }
    }
    if Negligible(members, users[n..]) {
      forall i | 0 <= i < |members| ensures few[i] == all[i] {
        assert members[i].userId in explicit;
        SameEntry(members[i], users, n);
      }
    }
  }

  lemma NobodyBeyond(users: seq<OrgUser>, explicit: set<string>)
    ensures InheritedAccess(users, explicit) == []
       <==> forall u :: u in users && u.id !in explicit ==> InheritedRole(u.role) == ""
  {
    var list := InheritedAccess(users, explicit);
    if list != [] {
      InheritedExact(users, explicit, list[0]);
    }
    forall u | u in users && u.id !in explicit && InheritedRole(u.role) != "" ensures list != [] {
      InheritedExact(users, explicit, Access(u.id, u.email, u.role, InheritedRole(u.role), true));
    }
  }

  /** Nobody is on the list twice. */
  lemma EffectiveAccessOnce(members: seq<Member>, users: seq<OrgUser>)
    requires DistinctIds(members, MemberId) && DistinctIds(users, UserId)
    ensures var list := EffectiveAccess(members, users);
            forall i, j :: 0 <= i < j < |list| ==> list[i].userId != list[j].userId
  {
    var explicit := MemberIds(members);
    InheritedOnce(users, explicit);
    var list := EffectiveAccess(members, users);
    var n := |members|;
    forall i, j | 0 <= i < j < |list| ensures list[i].userId != list[j].userId {
      if j < n {
        assert MemberId(members[i]) != MemberId(members[j]);
      } else if i < n {
        assert members[i].userId in explicit;
        assert list[j] == InheritedAccess(users, explicit)[j - n];
      } else {
        assert list[i] == InheritedAccess(users, explicit)[i - n];
        assert list[j] == InheritedAccess(users, explicit)[j - n];
      }
    }
  }

  lemma {:induction false} InheritedOnce(users: seq<OrgUser>, explicit: set<string>)
    requires forall i, j :: 0 <= i < j < |users| ==> UserId(users[i]) != UserId(users[j])
    ensures var list := InheritedAccess(users, explicit);
            && (forall i, j :: 0 <= i < j < |list| ==> list[i].userId != list[j].userId)
            && (forall i :: 0 <= i < |list| ==> list[i].userId !in explicit)
  {
    if users != [] {
      var u := users[0];
      var rest := InheritedAccess(users[1..], explicit);
      forall i, j | 0 <= i < j < |users[1..]| ensures UserId(users[1..][i]) != UserId(users[1..][j]) {
        assert users[1..][i] == users[i + 1] && users[1..][j] == users[j + 1];
      }
      InheritedOnce(users[1..], explicit);
      forall i | 0 <= i < |rest| ensures rest[i].userId != u.id {
        InheritedExact(users[1..], explicit, rest[i]);
        var v :| v in users[1..] && rest[i].userId == v.id;
        var k :| 0 <= k < |users[1..]| && users[1..][k] == v;
        assert UserId(users[0]) != UserId(users[k + 1]);
      }
    }
  }
}
