/** The access ids the provider prints when it grants something and parses back when the
    grant is revoked. */
module AccessIds {
  import opened Text

  const WS_PREFIX := "anthropic-ws:"
  const INVITE_PREFIX := "anthropic-invite:"
  const RECORD_PREFIX := "anthropic-"
  const USER_MARK := ":user:"

  predicate IsHex(c: char) {
    '0' <= c <= '9' || 'a' <= c <= 'f'
  }

  /** The first sixteen hexadecimal digits of a digest. */
  type Digest = s: string | |s| == 16 && forall i :: 0 <= i < |s| ==> IsHex(s[i]) witness "0000000000000000"

  function WorkspaceAccess(ws: string, user: string): string {
    WS_PREFIX + ws + USER_MARK + user
  }

  function InviteAccess(invite: string): string {
    INVITE_PREFIX + invite
  }

  function RecordAccess(digest: Digest): string {
    RECORD_PREFIX + digest
  }

  /** What a revocation has to undo. */
  datatype Target = Missing | Membership(ws: string, user: string) | MalformedMembership
                  | Invitation(invite: string) | NothingUpstream

  predicate OccursAt(s: string, mark: string, i: nat) {
    i + |mark| <= |s| && s[i..i + |mark|] == mark
  }

  predicate Contains(s: string, mark: string) {
    exists i :: 0 <= i <= |s| && OccursAt(s, mark, i)
  }

  predicate HasPrefix(s: string, prefix: string) {
    OccursAt(s, prefix, 0)
  }

  predicate HasSuffix(s: string, suffix: string) {
    |suffix| <= |s| && OccursAt(s, suffix, |s| - |suffix|)
  }

  /** The first occurrence at or after a position. */
  function IndexFrom(s: string, mark: string, from: nat): (r: Option<nat>)
    requires from <= |s|
    ensures r.Some? ==> from <= r.value && OccursAt(s, mark, r.value)
    ensures r.Some? ==> forall i :: from <= i < r.value ==> !OccursAt(s, mark, i)
    ensures r.None? ==> forall i :: from <= i <= |s| ==> !OccursAt(s, mark, i)
    decreases |s| - from
  {
    if OccursAt(s, mark, from) then Some(from)
    else if from == |s| then None
    else IndexFrom(s, mark, from + 1)
  }

  function Decode(id: string): Target {
    if id == "" then Missing
    else if HasPrefix(id, WS_PREFIX) then
      var rest := id[|WS_PREFIX|..];
      var at := IndexFrom(rest, USER_MARK, 0);
      if at.None? then MalformedMembership
      else Membership(rest[..at.value], rest[at.value + |USER_MARK|..])
    else if HasPrefix(id, INVITE_PREFIX) then Invitation(id[|INVITE_PREFIX|..])
    else NothingUpstream
  }

  /** A workspace id is read back whole unless it holds the mark or its last characters run
      into it. */
  predicate Unambiguous(ws: string) {
    !Contains(ws, USER_MARK) && !HasSuffix(ws, ":user")
  }

  /** The mark overlaps itself only in its outer colons. */
  lemma {:induction false} MarkBeforeTheEnd(ws: string, user: string, p: nat)
    requires p < |ws| && OccursAt(ws + USER_MARK + user, USER_MARK, p)
    ensures !Unambiguous(ws)
  {
    var rest := ws + USER_MARK + user;
    if p + |USER_MARK| <= |ws| {
      assert ws[p..p + |USER_MARK|] == rest[p..p + |USER_MARK|];
      assert OccursAt(ws, USER_MARK, p);
    } else {
      var k := |ws| - p;
      assert rest[p..p + |USER_MARK|][k] == rest[|ws|] == ':';
      assert USER_MARK[k] == ':' && k == 5;
      assert ws[p..p + 5] == rest[p..p + |USER_MARK|][..5] == ":user";
    }
  }

  lemma {:induction false} MarkIsSeenEarlier(ws: string, user: string)
    requires !Unambiguous(ws)
    ensures exists p :: 0 <= p < |ws| && OccursAt(ws + USER_MARK + user, USER_MARK, p)
  {
    var rest := ws + USER_MARK + user;
    if Contains(ws, USER_MARK) {
      var i :| 0 <= i <= |ws| && OccursAt(ws, USER_MARK, i);
      assert rest[i..i + |USER_MARK|] == ws[i..i + |USER_MARK|];
      assert OccursAt(rest, USER_MARK, i);
    } else {
      var i := |ws| - 5;
      assert rest[i..i + |USER_MARK|] == ws[i..i + 5] + [':'];
      assert OccursAt(rest, USER_MARK, i);
    }
  }

  /** A printed workspace id decodes to its workspace and user exactly when the workspace
      id is unambiguous, whatever the user id holds. */
  lemma {:induction false} WorkspaceAccessRoundTrip(ws: string, user: string)
    ensures Decode(WorkspaceAccess(ws, user)) == Membership(ws, user) <==> Unambiguous(ws)
  {
    hide Unambiguous;
    var id, rest := WorkspaceAccess(ws, user), ws + USER_MARK + user;
    assert id == WS_PREFIX + rest;
    assert id[|WS_PREFIX|..] == rest;
    assert rest[|ws|..|ws| + |USER_MARK|] == USER_MARK;
    assert OccursAt(rest, USER_MARK, |ws|);
    var at := IndexFrom(rest, USER_MARK, 0);
    if Unambiguous(ws) {
      if at.value < |ws| {
        MarkBeforeTheEnd(ws, user, at.value);
      }
      assert rest[..|ws|] == ws && rest[|ws| + |USER_MARK|..] == user;
    } else {
      MarkIsSeenEarlier(ws, user);
      assert |rest[..at.value]| < |ws|;
    }
  }

  lemma CharRulesOut(s: string, prefix: string, i: nat)
    requires i < |prefix| && i < |s| && s[i] != prefix[i]
    ensures !HasPrefix(s, prefix)
  {
    assert |prefix| <= |s| ==> s[0..|prefix|][i] == s[i];
  }

  /** The other two forms are always read back as what they are, so the three never
      collide. */
  lemma {:induction false} OtherFormsRoundTrip(invite: string, digest: Digest)
    ensures Decode(InviteAccess(invite)) == Invitation(invite)
    ensures Decode(RecordAccess(digest)) == NothingUpstream
  {
    var id, record := InviteAccess(invite), RecordAccess(digest);
    assert id[..|INVITE_PREFIX|] == INVITE_PREFIX && id[|INVITE_PREFIX|..] == invite;
    CharRulesOut(id, WS_PREFIX, 10);
    assert IsHex(record[10]);
    CharRulesOut(record, WS_PREFIX, 10);
    CharRulesOut(record, INVITE_PREFIX, 10);
  }

  /** What the three forms look like, and that none is ever another. */
  lemma {:induction false} FormsNeverCollide(ws: string, user: string, invite: string, digest: Digest)
    ensures WorkspaceAccess(ws, user) == "anthropic-ws:" + ws + ":user:" + user
    ensures InviteAccess(invite) == "anthropic-invite:" + invite && RecordAccess(digest) == "anthropic-" + digest
    ensures WorkspaceAccess(ws, user) != InviteAccess(invite)
    ensures WorkspaceAccess(ws, user) != RecordAccess(digest)
    ensures InviteAccess(invite) != RecordAccess(digest)
  {
    assert WorkspaceAccess(ws, user)[10] == 'w' && InviteAccess(invite)[10] == 'i';
    assert IsHex(RecordAccess(digest)[10]);
  }
}
