/** The share dialog of src/components/ShareDialog.tsx: for the owner, the
    cached members and active invite links of one list; for anyone else, the
    leave action. */
module ShareDialog {
  import opened Wrappers
  import opened Seqs

  /** A row of `invite_tokens` (`InviteToken` of src/types/index.ts). */
  datatype InviteToken = InviteToken(
    id: string, listId: string, token: string, createdBy: string,
    createdAt: string, expiresAt: string, isActive: bool)

  /** A row of the `get_list_members` answer (`ListMember` of src/types/index.ts). */
  datatype ListMember = ListMember(userId: string, email: string, displayName: Option<string>, isOwner: bool)

  /** The row sent by `createInviteLink`. */
  datatype InviteRequest = InviteRequest(listId: string, createdBy: string)

  /** A `list_shares` row, as deleted by `handleLeave`. */
  datatype ListShare = ListShare(listId: string, userId: string)

  /** The parent's callbacks that `handleLeave` invokes. */
  datatype Callback = OnLeave | OnClose

  /** What `handleLeave` does: the share it deletes and the callbacks it runs, in order. */
  datatype LeaveOutcome = LeaveOutcome(deleted: Option<ListShare>, calls: seq<Callback>)

  function InviteId(inv: InviteToken): string { inv.id }

  function MemberUserId(m: ListMember): string { m.userId }

  /** `member.display_name ?? member.email`: only a missing name falls back. */
  function MemberLabel(m: ListMember): (r: string)
    ensures m.displayName.Some? ==> r == m.displayName.value
    ensures m.displayName.None? ==> r == m.email
  {
    match m.displayName
    case Some(name) => name
    case None => m.email
  }

  /** `[data, ...invites]`: the new invite first, the others after it in order. */
  function PrependInvite(invites: seq<InviteToken>, created: InviteToken): (r: seq<InviteToken>)
    ensures |r| == |invites| + 1 && r[0] == created && r[1..] == invites
  {
    [created] + invites
  }

  /** `invites.filter((inv) => inv.id !== id)` */
  function RemoveInvite(invites: seq<InviteToken>, id: string): (r: seq<InviteToken>)
    ensures forall inv :: inv in r <==> inv in invites && inv.id != id
  {
    RemoveKey(InviteId, invites, id)
  }

  /** `members.filter((m) => m.user_id !== userId)` */
  function RemoveMember(members: seq<ListMember>, userId: string): (r: seq<ListMember>)
    ensures forall m :: m in r <==> m in members && m.userId != userId
  {
    RemoveKey(MemberUserId, members, userId)
  }

  /** Deactivating the invite just created restores the invite list, when its
      id was new. */
  lemma CreateThenDeactivate(invites: seq<InviteToken>, created: InviteToken)
    requires forall i :: 0 <= i < |invites| ==> invites[i].id != created.id
    ensures RemoveInvite(PrependInvite(invites, created), created.id) == invites
  {
    RemoveKeyConcat(InviteId, [created], invites, created.id);
    RemoveAbsentKey(InviteId, invites, created.id);
  }

  /** Removing members and deactivating invites keep the others in order. */
  lemma RemovalsKeepOrder(
    frontM: seq<ListMember>, backM: seq<ListMember>, userId: string,
    frontI: seq<InviteToken>, backI: seq<InviteToken>, id: string)
    ensures RemoveMember(frontM + backM, userId) ==
      RemoveMember(frontM, userId) + RemoveMember(backM, userId)
    ensures RemoveInvite(frontI + backI, id) == RemoveInvite(frontI, id) + RemoveInvite(backI, id)
  {
    RemoveKeyConcat(MemberUserId, frontM, backM, userId);
    RemoveKeyConcat(InviteId, frontI, backI, id);
  }

  /** `handleLeave`: only a confirmed leave by a signed-in user deletes the
      user's share of the list, then calls `onLeave` (when given) and `onClose`. */
  function HandleLeave(confirmed: bool, user: Option<string>, listId: string, hasOnLeave: bool)
    : (r: LeaveOutcome)
    ensures r.calls != [] <==> confirmed && user.Some?
    ensures r.deleted.Some? <==> r.calls != []
    ensures r.deleted.Some? ==> r.deleted.value == ListShare(listId, user.value)
    ensures r.calls != [] ==> r.calls[|r.calls| - 1] == OnClose
    ensures r.calls != [] ==> (OnLeave in r.calls <==> hasOnLeave)
    ensures r.calls != [] && hasOnLeave ==> r.calls == [OnLeave, OnClose]
    ensures r.calls != [] && !hasOnLeave ==> r.calls == [OnClose]
  {
    if !confirmed || user.None? then LeaveOutcome(None, [])
    else
      LeaveOutcome(Some(ListShare(listId, user.value)),
                   (if hasOnLeave then [OnLeave] else []) + [OnClose])
  }

  /** The state of one open dialog. */
  class ShareDialog {
    const listId: string
    const isOwner: bool
    var members: seq<ListMember>
    var invites: seq<InviteToken>
    var isCreatingLink: bool

    constructor (listId: string, isOwner: bool)
      ensures this.listId == listId && this.isOwner == isOwner
      ensures members == [] && invites == [] && !isCreatingLink
    {
      this.listId, this.isOwner := listId, isOwner;
      members, invites, isCreatingLink := [], [], false;
    }

    /** The open effect: only an owner fetches members and invites; each answer
        replaces its cache when the store returned data. */
    method Open(fetchedMembers: Option<seq<ListMember>>, fetchedInvites: Option<seq<InviteToken>>)
      returns (fetched: bool)
      modifies this`members, this`invites
      ensures fetched == isOwner
      ensures members == if isOwner && fetchedMembers.Some? then fetchedMembers.value else old(members)
      ensures invites == if isOwner && fetchedInvites.Some? then fetchedInvites.value else old(invites)
    {
      fetched := isOwner;
      if isOwner {
        if fetchedMembers.Some? {
          members := fetchedMembers.value;
        }
        if fetchedInvites.Some? {
          invites := fetchedInvites.value;
        }
      }
    }

    /** `createInviteLink`: returns the row it asks the store to insert, if any.
        Without a signed-in user it stops early and the busy flag stays set. */
    method CreateInviteLink(user: Option<string>, reply: Reply<InviteToken>)
      returns (sent: Option<InviteRequest>)
      modifies this`invites, this`isCreatingLink
      ensures sent == if user.Some? then Some(InviteRequest(listId, user.value)) else None
      ensures invites == if user.Some? && reply.Ok? then PrependInvite(old(invites), reply.data)
                         else old(invites)
      ensures isCreatingLink <==> user.None?
    {
      isCreatingLink := true;
      if user.None? {
        sent := None;
        return;
      }
      sent := Some(InviteRequest(listId, user.value));
      if reply.Ok? {
        invites := PrependInvite(invites, reply.data);
      }
      isCreatingLink := false;
    }

    /** `deactivateInvite`: the store's answer is not looked at; the invite is
        dropped from the cache in every case. */
    method DeactivateInvite(id: string)
      modifies this`invites
      ensures invites == RemoveInvite(old(invites), id)
    {
      invites := RemoveInvite(invites, id);
    }

    /** `removeMember`: after a confirmed prompt the member is dropped from the
        cache whatever the store answers. */
    method RemoveMemberConfirmed(userId: string, confirmed: bool)
      modifies this`members
      ensures members == if confirmed then RemoveMember(old(members), userId) else old(members)
    {
      if !confirmed {
        return;
      }
      members := RemoveMember(members, userId);
    }
  }
}
