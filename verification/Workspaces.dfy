/**
 What each workspace operation does to the state: roles, channels, channel membership.
 */
module Workspaces {
  import opened JsCollections
  import opened Ids
  import opened DmNames
  import opened Domain

  // ---------------------------------------------------------------- queries

  function GetRole(ws: WorkspaceState, user: UserId, w: WorkspaceId): Option<Role> {
    if (w, user) in ws.roles then Some(ws.roles[(w, user)]) else None
  }

  predicate CanAccessWorkspace(ws: WorkspaceState, user: UserId, w: WorkspaceId) {
    (w, user) in ws.roles
  }

  predicate IsManager(ws: WorkspaceState, user: UserId, w: WorkspaceId) {
    GetRole(ws, user, w) in {Some(Owner), Some(Admin)}
  }

  /** Any workspace member may use a room called "general"; every other channel needs explicit membership. */
  predicate CanAccessChannel(ws: WorkspaceState, user: UserId, c: ChannelId) {
    c in ws.channels.vals
    && var channel := ws.channels.vals[c];
    channel.deletedAt.None?
    && if channel.kind == Room && channel.name == "general" then CanAccessWorkspace(ws, user, channel.workspaceId)
       else (c, user) in ws.channelMembers
  }

  predicate CanManageChannel(ws: WorkspaceState, user: UserId, c: ChannelId) {
    c in ws.channels.vals
    && (ws.channels.vals[c].createdById == Some(user) || IsManager(ws, user, ws.channels.vals[c].workspaceId))
  }

  function ListChannels(ws: WorkspaceState, actor: UserId, w: WorkspaceId): seq<Channel>
    requires ws.channels.Valid()
  {
    if !CanAccessWorkspace(ws, actor, w) then []
    else Filter(ws.channels.Values(), Listed(ws, actor, w))
  }

  function Listed(ws: WorkspaceState, actor: UserId, w: WorkspaceId): Channel -> bool {
    (ch: Channel) => ch.workspaceId == w && CanAccessChannel(ws, actor, ch.id)
  }

  /** The first channel of the workspace with this name, in creation order. */
  function FindByName(ws: WorkspaceState, w: WorkspaceId, name: string): Option<ChannelId> {
    FindFirst(ws.channels.keys, Named(ws, w, name))
  }

  function Named(ws: WorkspaceState, w: WorkspaceId, name: string): ChannelId -> bool {
    (c: ChannelId) => c in ws.channels.vals && ws.channels.vals[c].workspaceId == w && ws.channels.vals[c].name == name
  }

  // ---------------------------------------------------------------- operations

  function CreateWorkspace(
      ws: WorkspaceState, actor: UserId, name: string, w: WorkspaceId, general: ChannelId, now: nat): WorkspaceState
  {
    WorkspaceState(
      ws.workspaces[w := name],
      ws.roles[(w, actor) := Owner],
      ws.channels.Set(general, Channel(general, w, "general", None, Room, Normal, false, Some(actor), None, None, now)),
      ws.channelMembers + {(general, actor)})
  }

  function AddMember(
      ws: WorkspaceState, actor: UserId, w: WorkspaceId, user: UserId, role: Role): (WorkspaceState, Outcome<Role>)
  {
    if !IsManager(ws, actor, w) then (ws, Fail(Forbidden))
    else if role == Owner && GetRole(ws, actor, w) != Some(Owner) then (ws, Fail(Forbidden))
    else (ws.(roles := ws.roles[(w, user) := role]), Ok(role))
  }

  predicate InWorkspace(ws: WorkspaceState, c: ChannelId, w: WorkspaceId) {
    c in ws.channels.vals && ws.channels.vals[c].workspaceId == w
  }

  function RemoveMember(ws: WorkspaceState, actor: UserId, w: WorkspaceId, user: UserId): (WorkspaceState, Outcome<bool>) {
    var actorRole, targetRole := GetRole(ws, actor, w), GetRole(ws, user, w);
    if !IsManager(ws, actor, w) then (ws, Fail(Forbidden))
    else if targetRole == Some(Owner) && actor != user then (ws, Fail(Forbidden))
    else if actorRole == Some(Admin) && targetRole == Some(Admin) then (ws, Fail(Forbidden))
    else (WithoutMember(ws, w, user), Ok((w, user) in ws.roles))
  }

  /** Neither a role in the workspace nor a place in any of its channels. */
  function WithoutMember(ws: WorkspaceState, w: WorkspaceId, user: UserId): WorkspaceState {
    ws.(roles := ws.roles - {(w, user)},
        channelMembers := set p | p in ws.channelMembers && !(p.1 == user && InWorkspace(ws, p.0, w)))
  }

  function TransferOwnership(
      ws: WorkspaceState, actor: UserId, w: WorkspaceId, user: UserId): (WorkspaceState, Outcome<Role>)
  {
    if GetRole(ws, actor, w) != Some(Owner) then (ws, Fail(Forbidden))
    else if (w, user) !in ws.roles then (ws, Fail(NotFound))
    else (ws.(roles := ws.roles[(w, user) := Owner][(w, actor) := Admin]), Ok(Owner))
  }

  function WithChannel(ws: WorkspaceState, ch: Channel, members: set<UserId>): WorkspaceState {
    ws.(channels := ws.channels.Set(ch.id, ch), channelMembers := ws.channelMembers + (set u | u in members :: (ch.id, u)))
  }

  /** The store's part of creating a room: only the name is checked. */
  function StoreRoom(
      ws: WorkspaceState, actor: UserId, w: WorkspaceId, name: string, mode: ChannelMode, isPrivate: bool,
      c: ChannelId, now: nat): (WorkspaceState, Outcome<Channel>)
  {
    if FindByName(ws, w, name).Some? then (ws, Fail(Conflict))
    else
      var ch := Channel(c, w, name, None, Room, mode, isPrivate, Some(actor), None, None, now);
      (WithChannel(ws, ch, {actor}), Ok(ch))
  }

  function CreateChannel(
      ws: WorkspaceState, actor: UserId, w: WorkspaceId, name: string, mode: ChannelMode, isPrivate: bool,
      c: ChannelId, now: nat): (WorkspaceState, Outcome<Channel>)
  {
    if !CanAccessWorkspace(ws, actor, w) then (ws, Fail(Forbidden))
    else StoreRoom(ws, actor, w, name, mode, isPrivate, c, now)
  }

  /** The store's part of a direct message: whatever bears the pair's name, or a new channel. */
  function StoreDm(
      ws: WorkspaceState, actor: UserId, w: WorkspaceId, peer: UserId, mode: ChannelMode, c: ChannelId,
      now: nat): (WorkspaceState, Channel)
  {
    var name := DmName(actor, peer, mode);
    match FindByName(ws, w, name)
    case Some(existing) => (ws, ws.channels.vals[existing])
    case None =>
      var ch := Channel(c, w, name, None, DirectMessage, mode, true, None, None, None, now);
      (WithChannel(ws, ch, {actor, peer}), ch)
  }

  function CreateOrGetDm(
      ws: WorkspaceState, actor: UserId, w: WorkspaceId, peer: UserId, mode: ChannelMode, c: ChannelId,
      now: nat): (WorkspaceState, Outcome<Channel>)
  {
    if !CanAccessWorkspace(ws, actor, w) || !CanAccessWorkspace(ws, peer, w) then (ws, Fail(Forbidden))
    else
      var (ws', ch) := StoreDm(ws, actor, w, peer, mode, c, now);
      (ws', Ok(ch))
  }

  function PutChannel(ws: WorkspaceState, ch: Channel): WorkspaceState {
    ws.(channels := ws.channels.Set(ch.id, ch))
  }

  /** `name` and `description` are each present or absent in the request; a present description may be cleared. */
  function UpdateChannel(
      ws: WorkspaceState, actor: UserId, c: ChannelId, name: Option<string>,
      description: Option<Option<string>>): (WorkspaceState, Outcome<Channel>)
  {
    if c !in ws.channels.vals then (ws, Fail(NotFound))
    else if !CanManageChannel(ws, actor, c) then (ws, Fail(Forbidden))
    else
      var ch := Renamed(ws.channels.vals[c], name, description);
      (PutChannel(ws, ch), Ok(ch))
  }

  function Renamed(ch: Channel, name: Option<string>, description: Option<Option<string>>): Channel {
    ch.(name := if name.Some? then name.value else ch.name,
        description := if description.Some? then description.value else ch.description)
  }

  function ArchiveChannel(ws: WorkspaceState, actor: UserId, c: ChannelId, now: nat): (WorkspaceState, Outcome<Channel>) {
    if !CanManageChannel(ws, actor, c) then (ws, Fail(Forbidden))
    else
      var ch := ws.channels.vals[c].(archivedAt := Some(now));
      (PutChannel(ws, ch), Ok(ch))
  }

  function DeleteChannel(ws: WorkspaceState, actor: UserId, c: ChannelId, now: nat): (WorkspaceState, Outcome<Channel>) {
    if !CanManageChannel(ws, actor, c) then (ws, Fail(Forbidden))
    else
      var ch := ws.channels.vals[c].(deletedAt := Some(now));
      (PutChannel(ws, ch), Ok(ch))
  }

  function AddChannelMember(ws: WorkspaceState, actor: UserId, c: ChannelId, user: UserId): (WorkspaceState, Outcome<()>) {
    if c !in ws.channels.vals || !CanAccessWorkspace(ws, actor, ws.channels.vals[c].workspaceId) || !CanManageChannel(ws, actor, c)
    then (ws, Fail(Forbidden))
    else if ws.channels.vals[c].archivedAt.Some? || ws.channels.vals[c].deletedAt.Some? then (ws, Fail(Forbidden))
    else (ws.(channelMembers := ws.channelMembers + {(c, user)}), Ok(()))
  }

  function RemoveChannelMember(
      ws: WorkspaceState, actor: UserId, c: ChannelId, user: UserId): (WorkspaceState, Outcome<bool>)
  {
    if c !in ws.channels.vals || !CanAccessWorkspace(ws, actor, ws.channels.vals[c].workspaceId) then (ws, Fail(Forbidden))
    else if !CanManageChannel(ws, actor, c) && actor != user then (ws, Fail(Forbidden))
    else (ws.(channelMembers := ws.channelMembers - {(c, user)}), Ok((c, user) in ws.channelMembers))
  }

  // ---------------------------------------------------------------- runs of operations

  /** One call of the service; a creating call carries the fresh id it draws. */
  datatype WorkspaceOp =
    | CreateWorkspaceOp(actor: UserId, name: string, w: WorkspaceId, general: ChannelId)
    | AddMemberOp(actor: UserId, w: WorkspaceId, user: UserId, role: Role)
    | RemoveMemberOp(actor: UserId, w: WorkspaceId, user: UserId)
    | TransferOwnershipOp(actor: UserId, w: WorkspaceId, user: UserId)
    | CreateChannelOp(actor: UserId, w: WorkspaceId, name: string, mode: ChannelMode, isPrivate: bool, c: ChannelId)
    | CreateOrGetDmOp(actor: UserId, w: WorkspaceId, peer: UserId, mode: ChannelMode, c: ChannelId)
    | UpdateChannelOp(actor: UserId, c: ChannelId, newName: Option<string>, newDescription: Option<Option<string>>)
    | ArchiveChannelOp(actor: UserId, c: ChannelId)
    | DeleteChannelOp(actor: UserId, c: ChannelId)
    | AddChannelMemberOp(actor: UserId, c: ChannelId, user: UserId)
    | RemoveChannelMemberOp(actor: UserId, c: ChannelId, user: UserId)

  predicate FreshIds(ws: WorkspaceState, op: WorkspaceOp) {
    match op
    case CreateWorkspaceOp(_, _, w, general) => w !in ws.workspaces && general !in ws.channels.vals
    case CreateChannelOp(_, _, _, _, _, c) => c !in ws.channels.vals
    case CreateOrGetDmOp(_, _, _, _, c) => c !in ws.channels.vals
    case _ => true
  }

  function Apply(ws: WorkspaceState, op: WorkspaceOp, now: nat): WorkspaceState {
    match op
    case CreateWorkspaceOp(actor, name, w, general) => CreateWorkspace(ws, actor, name, w, general, now)
    case AddMemberOp(actor, w, user, role) => AddMember(ws, actor, w, user, role).0
    case RemoveMemberOp(actor, w, user) => RemoveMember(ws, actor, w, user).0
    case TransferOwnershipOp(actor, w, user) => TransferOwnership(ws, actor, w, user).0
    case CreateChannelOp(actor, w, name, mode, isPrivate, c) => CreateChannel(ws, actor, w, name, mode, isPrivate, c, now).0
    case CreateOrGetDmOp(actor, w, peer, mode, c) => CreateOrGetDm(ws, actor, w, peer, mode, c, now).0
    case UpdateChannelOp(actor, c, name, description) => UpdateChannel(ws, actor, c, name, description).0
    case ArchiveChannelOp(actor, c) => ArchiveChannel(ws, actor, c, now).0
    case DeleteChannelOp(actor, c) => DeleteChannel(ws, actor, c, now).0
    case AddChannelMemberOp(actor, c, user) => AddChannelMember(ws, actor, c, user).0
    case RemoveChannelMemberOp(actor, c, user) => RemoveChannelMember(ws, actor, c, user).0
  }

  // ---------------------------------------------------------------- the two halves of a call

  predicate Puts(op: WorkspaceOp) {
    op.UpdateChannelOp? || op.ArchiveChannelOp? || op.DeleteChannelOp?
  }

  /** The checks a call makes before it goes to the store. */
  predicate Grants(ws: WorkspaceState, op: WorkspaceOp) {
    match op
    case CreateWorkspaceOp(_, _, _, _) => true
    case AddMemberOp(actor, w, _, role) => IsManager(ws, actor, w) && (role == Owner ==> GetRole(ws, actor, w) == Some(Owner))
    case RemoveMemberOp(actor, w, user) => RemoveMember(ws, actor, w, user).1.Ok?
    case TransferOwnershipOp(actor, w, _) => GetRole(ws, actor, w) == Some(Owner)
    case CreateChannelOp(actor, w, _, _, _, _) => CanAccessWorkspace(ws, actor, w)
    case CreateOrGetDmOp(actor, w, peer, _, _) => CanAccessWorkspace(ws, actor, w) && CanAccessWorkspace(ws, peer, w)
    case UpdateChannelOp(actor, c, _, _) => CanManageChannel(ws, actor, c)
    case ArchiveChannelOp(actor, c) => CanManageChannel(ws, actor, c)
    case DeleteChannelOp(actor, c) => CanManageChannel(ws, actor, c)
    case AddChannelMemberOp(actor, c, user) => AddChannelMember(ws, actor, c, user).1.Ok?
    case RemoveChannelMemberOp(actor, c, user) => RemoveChannelMember(ws, actor, c, user).1.Ok?
  }

  /** The channel that an update, archiving or deletion finds, and later writes back changed. */
  function FoundBy(ws: WorkspaceState, op: WorkspaceOp): Option<Channel> {
    if Puts(op) then ws.channels.Get(op.c) else None
  }

  function Changed(ch: Channel, op: WorkspaceOp, now: nat): Channel {
    match op
    case UpdateChannelOp(_, _, name, description) => Renamed(ch, name, description)
    case ArchiveChannelOp(_, _) => ch.(archivedAt := Some(now))
    case DeleteChannelOp(_, _) => ch.(deletedAt := Some(now))
    case _ => ch
  }

  function SetRole(ws: WorkspaceState, w: WorkspaceId, user: UserId, role: Role): WorkspaceState {
    if (w, user) in ws.roles then ws.(roles := ws.roles[(w, user) := role]) else ws
  }

  /** What a call whose checks have passed does to the store, whatever has happened since. */
  function Settle(ws: WorkspaceState, op: WorkspaceOp, found: Option<Channel>, now: nat): WorkspaceState {
    match op
    case CreateWorkspaceOp(actor, name, w, general) => CreateWorkspace(ws, actor, name, w, general, now)
    case AddMemberOp(_, w, user, role) => ws.(roles := ws.roles[(w, user) := role])
    case RemoveMemberOp(_, w, user) => WithoutMember(ws, w, user)
    case TransferOwnershipOp(actor, w, user) => if (w, user) in ws.roles then SetRole(SetRole(ws, w, user, Owner), w, actor, Admin) else ws
    case CreateChannelOp(actor, w, name, mode, isPrivate, c) => StoreRoom(ws, actor, w, name, mode, isPrivate, c, now).0
    case CreateOrGetDmOp(actor, w, peer, mode, c) => StoreDm(ws, actor, w, peer, mode, c, now).0
    case AddChannelMemberOp(_, c, user) => ws.(channelMembers := ws.channelMembers + {(c, user)})
    case RemoveChannelMemberOp(_, c, user) => ws.(channelMembers := ws.channelMembers - {(c, user)})
    case _ => if found.Some? then PutChannel(ws, Changed(found.value, op, now)) else ws
  }

  /** With nothing in between, the two halves are the whole call. */
  lemma HalvesMakeWhole(ws: WorkspaceState, op: WorkspaceOp, now: nat)
    ensures Apply(ws, op, now) == if Grants(ws, op) then Settle(ws, op, FoundBy(ws, op), now) else ws
  {
    hide FindByName, DmName;
  }

  // ---------------------------------------------------------------- what every call keeps

  ghost predicate WorkspaceInv(ws: WorkspaceState) {
    && ws.channels.Valid()
    && (forall c :: c in ws.channels.vals ==> ws.channels.vals[c].id == c)
    && (forall p :: p in ws.channelMembers ==> p.0 in ws.channels.vals)
    && (forall r :: r in ws.roles ==> r.0 in ws.workspaces)
  }

  /** What no update of a channel ever changes. */
  predicate SameChannel(ch: Channel, ch': Channel) {
    && ch'.mode == ch.mode && ch'.kind == ch.kind && ch'.workspaceId == ch.workspaceId
    && ch'.isPrivate == ch.isPrivate && ch'.createdById == ch.createdById
  }

  /** Channels never disappear; they keep their workspace, kind, mode, privacy and creator. */
  ghost predicate ChannelsPersist(ws: WorkspaceState, ws': WorkspaceState) {
    && (forall w :: w in ws.workspaces ==> w in ws'.workspaces)
    && (forall c :: c in ws.channels.vals ==> c in ws'.channels.vals && SameChannel(ws.channels.vals[c], ws'.channels.vals[c]))
  }

  predicate IsDeleted(ws: WorkspaceState, c: ChannelId) {
    c in ws.channels.vals && ws.channels.vals[c].deletedAt.Some?
  }

  ghost predicate DeletionsPersist(ws: WorkspaceState, ws': WorkspaceState) {
    forall c :: IsDeleted(ws, c) ==> IsDeleted(ws', c)
  }

  /** What a call holds between its halves. */
  ghost predicate GrantFits(ws: WorkspaceState, op: WorkspaceOp, found: Option<Channel>) {
    && (op.AddMemberOp? || op.RemoveMemberOp? ==> op.w in ws.workspaces)
    && (op.AddChannelMemberOp? || op.RemoveChannelMemberOp? ==> op.c in ws.channels.vals)
    && (Puts(op) ==> found.Some? && CopyOf(ws, op.c, found.value))
  }

  ghost predicate CopyOf(ws: WorkspaceState, c: ChannelId, copy: Channel) {
    copy.id == c && c in ws.channels.vals && SameChannel(ws.channels.vals[c], copy)
  }

  lemma GrantedFits(ws: WorkspaceState, op: WorkspaceOp)
    requires WorkspaceInv(ws) && Grants(ws, op)
    ensures GrantFits(ws, op, FoundBy(ws, op))
  {
    if op.AddMemberOp? || op.RemoveMemberOp? {
      assert (op.w, op.actor) in ws.roles;
    }
  }

  lemma GrantStillFits(ws: WorkspaceState, ws': WorkspaceState, op: WorkspaceOp, found: Option<Channel>)
    requires GrantFits(ws, op, found) && ChannelsPersist(ws, ws')
    ensures GrantFits(ws', op, found)
  {
  }

  lemma WithChannelKeeps(ws: WorkspaceState, ch: Channel, members: set<UserId>)
    requires WorkspaceInv(ws) && ch.id !in ws.channels.vals
    ensures WorkspaceInv(WithChannel(ws, ch, members)) && ChannelsPersist(ws, WithChannel(ws, ch, members))
    ensures DeletionsPersist(ws, WithChannel(ws, ch, members))
  {
  }

  lemma PutChannelKeeps(ws: WorkspaceState, ch: Channel)
    requires WorkspaceInv(ws) && CopyOf(ws, ch.id, ch)
    ensures WorkspaceInv(PutChannel(ws, ch)) && ChannelsPersist(ws, PutChannel(ws, ch))
    ensures DeletionsPersist(ws, PutChannel(ws, ch)) <==> (IsDeleted(ws, ch.id) ==> ch.deletedAt.Some?)
  {
  }

  lemma MembershipKeeps(ws: WorkspaceState, ws': WorkspaceState)
    requires WorkspaceInv(ws)
    requires ws'.channels == ws.channels && ws'.workspaces == ws.workspaces
    requires forall p: (ChannelId, UserId) :: p in ws'.channelMembers ==> p in ws.channelMembers || p.0 in ws.channels.vals
    requires forall r: (WorkspaceId, UserId) :: r in ws'.roles ==> r in ws.roles || r.0 in ws.workspaces
    ensures WorkspaceInv(ws') && ChannelsPersist(ws, ws') && DeletionsPersist(ws, ws')
  {
  }

  lemma CreateWorkspaceKeeps(ws: WorkspaceState, actor: UserId, name: string, w: WorkspaceId, general: ChannelId, now: nat)
    requires WorkspaceInv(ws) && w !in ws.workspaces && general !in ws.channels.vals
    ensures var ws' := CreateWorkspace(ws, actor, name, w, general, now);
      WorkspaceInv(ws') && ChannelsPersist(ws, ws') && DeletionsPersist(ws, ws')
  {
  }

  predicate Creates(op: WorkspaceOp) {
    op.CreateWorkspaceOp? || op.CreateChannelOp? || op.CreateOrGetDmOp?
  }

  lemma CreatesKeeps(ws: WorkspaceState, op: WorkspaceOp, found: Option<Channel>, now: nat)
    requires WorkspaceInv(ws) && FreshIds(ws, op) && Creates(op)
    ensures var ws' := Settle(ws, op, found, now);
      WorkspaceInv(ws') && ChannelsPersist(ws, ws') && DeletionsPersist(ws, ws')
  {
    hide FindByName, DmName;
    match op
    case CreateWorkspaceOp(actor, name, w, general) => CreateWorkspaceKeeps(ws, actor, name, w, general, now);
    case CreateChannelOp(actor, w, name, mode, isPrivate, c) =>
      WithChannelKeeps(ws, Channel(c, w, name, None, Room, mode, isPrivate, Some(actor), None, None, now), {actor});
    case CreateOrGetDmOp(actor, w, peer, mode, c) =>
      WithChannelKeeps(ws, Channel(c, w, DmName(actor, peer, mode), None, DirectMessage, mode, true, None, None, None, now), {actor, peer});
  }

  /** A copy written back that is not marked deleted, though its channel is by now. */
  predicate Undeletes(ws: WorkspaceState, op: WorkspaceOp, found: Option<Channel>) {
    Puts(op) && found.Some? && IsDeleted(ws, found.value.id) && found.value.deletedAt.None? && !op.DeleteChannelOp?
  }

  /** A second half keeps the tables consistent, every channel, and every channel's mode; and it keeps deleted channels
      deleted exactly when it does not write back an earlier copy of one. */
  lemma SettleKeeps(ws: WorkspaceState, op: WorkspaceOp, found: Option<Channel>, now: nat)
    requires WorkspaceInv(ws) && FreshIds(ws, op) && GrantFits(ws, op, found)
    ensures var ws' := Settle(ws, op, found, now);
      && WorkspaceInv(ws') && ChannelsPersist(ws, ws')
      && (DeletionsPersist(ws, ws') <==> !Undeletes(ws, op, found))
  {
    if Creates(op) {
      CreatesKeeps(ws, op, found, now);
    } else if Puts(op) {
      PutChannelKeeps(ws, Changed(found.value, op, now));
    } else {
      MembershipKeeps(ws, Settle(ws, op, found, now));
    }
  }

  /** The second half of a call reopens a deleted channel exactly when it writes back a copy of it that was not deleted. */
  lemma SettleReopensIff(ws: WorkspaceState, op: WorkspaceOp, found: Option<Channel>, now: nat, c: ChannelId)
    requires WorkspaceInv(ws) && FreshIds(ws, op) && GrantFits(ws, op, found) && IsDeleted(ws, c)
    ensures IsDeleted(Settle(ws, op, found, now), c) <==> !(Undeletes(ws, op, found) && found.value.id == c)
  {
    hide FindByName, DmName;
    if !Puts(op) {
      hide Settle;
      SettleKeeps(ws, op, found, now);
    }
  }

  /** Every whole call keeps the invariant, every channel, every channel's mode, and deletions. */
  lemma {:induction false} ApplyKeeps(ws: WorkspaceState, op: WorkspaceOp, now: nat)
    requires WorkspaceInv(ws) && FreshIds(ws, op)
    ensures WorkspaceInv(Apply(ws, op, now)) && ChannelsPersist(ws, Apply(ws, op, now)) && DeletionsPersist(ws, Apply(ws, op, now))
  {
    hide Apply, Grants, Settle;
    HalvesMakeWhole(ws, op, now);
    if Grants(ws, op) {
      GrantedFits(ws, op);
      SettleKeeps(ws, op, FoundBy(ws, op), now);
    }
  }

  // ---------------------------------------------------------------- removing a member

  /** The user has no role in the workspace and is in none of its channels. */
  ghost predicate ShutOut(ws: WorkspaceState, user: UserId, w: WorkspaceId) {
    && w in ws.workspaces
    && (w, user) !in ws.roles
    && (forall c: ChannelId :: InWorkspace(ws, c, w) ==> (c, user) !in ws.channelMembers)
  }

  /** The calls that are meant to let the user in. */
  predicate Adds(ws: WorkspaceState, op: WorkspaceOp, user: UserId, w: WorkspaceId) {
    (op.AddMemberOp? && op.w == w && op.user == user)
    || (op.AddChannelMemberOp? && op.user == user && InWorkspace(ws, op.c, w))
  }

  /** A room or direct message of the workspace that the user would be in. */
  predicate OpensFor(op: WorkspaceOp, user: UserId, w: WorkspaceId) {
    (op.CreateChannelOp? && op.w == w && op.actor == user)
    || (op.CreateOrGetDmOp? && op.w == w && user in {op.actor, op.peer})
  }

  predicate NameIsFree(ws: WorkspaceState, op: WorkspaceOp) {
    match op
    case CreateChannelOp(_, w, name, _, _, _) => FindByName(ws, w, name).None?
    case CreateOrGetDmOp(actor, w, peer, mode, _) => FindByName(ws, w, DmName(actor, peer, mode)).None?
    case _ => true
  }

  /** Being shut out means: no channel of the workspace is accessible, and none is listed. */
  lemma ShutOutSeesNothing(ws: WorkspaceState, user: UserId, w: WorkspaceId)
    requires WorkspaceInv(ws) && ShutOut(ws, user, w)
    ensures forall c: ChannelId :: InWorkspace(ws, c, w) ==> !CanAccessChannel(ws, user, c)
    ensures ListChannels(ws, user, w) == []
  {
  }

  /** A successful removal shuts the user out and touches nothing else: no other user, no other workspace. */
  lemma RemoveMemberShutsOut(ws: WorkspaceState, actor: UserId, w: WorkspaceId, user: UserId)
    requires WorkspaceInv(ws)
    ensures var (ws', outcome) := RemoveMember(ws, actor, w, user);
      && (outcome.Ok? ==> ShutOut(ws', user, w))
      && (outcome.Fail? ==> ws' == ws)
      && (outcome.Ok? ==> ws'.channels == ws.channels && ws'.workspaces == ws.workspaces)
      && (forall r: (WorkspaceId, UserId) :: r != (w, user) ==> (r in ws'.roles <==> r in ws.roles) && (r in ws.roles ==> ws'.roles[r] == ws.roles[r]))
      && (forall p: (ChannelId, UserId) :: !(p.1 == user && InWorkspace(ws, p.0, w)) ==> (p in ws'.channelMembers <==> p in ws.channelMembers))
  {
  }

  lemma WithChannelShutsOutIff(ws: WorkspaceState, ch: Channel, members: set<UserId>, user: UserId, w: WorkspaceId)
    requires WorkspaceInv(ws) && ShutOut(ws, user, w) && ch.id !in ws.channels.vals
    ensures ShutOut(WithChannel(ws, ch, members), user, w) <==> !(ch.workspaceId == w && user in members)
  {
    var ws' := WithChannel(ws, ch, members);
    if ch.workspaceId == w && user in members {
      assert InWorkspace(ws', ch.id, w) && (ch.id, user) in ws'.channelMembers;
    }
  }

  lemma CreatesShutOutIff(ws: WorkspaceState, op: WorkspaceOp, found: Option<Channel>, now: nat, user: UserId, w: WorkspaceId)
    requires WorkspaceInv(ws) && FreshIds(ws, op) && ShutOut(ws, user, w) && Creates(op)
    ensures ShutOut(Settle(ws, op, found, now), user, w) <==> !(OpensFor(op, user, w) && NameIsFree(ws, op))
  {
    hide FindByName, DmName;
    match op
    case CreateWorkspaceOp(actor, name, w', general) =>
    case CreateChannelOp(actor, w', name, mode, isPrivate, c) =>
      if NameIsFree(ws, op) {
        WithChannelShutsOutIff(ws, Channel(c, w', name, None, Room, mode, isPrivate, Some(actor), None, None, now), {actor}, user, w);
      }
    case CreateOrGetDmOp(actor, w', peer, mode, c) =>
      if NameIsFree(ws, op) {
        var ch := Channel(c, w', DmName(actor, peer, mode), None, DirectMessage, mode, true, None, None, None, now);
        WithChannelShutsOutIff(ws, ch, {actor, peer}, user, w);
      }
  }

  lemma PutsKeepShutOut(ws: WorkspaceState, op: WorkspaceOp, found: Option<Channel>, now: nat, user: UserId, w: WorkspaceId)
    requires WorkspaceInv(ws) && ShutOut(ws, user, w) && Puts(op) && GrantFits(ws, op, found)
    ensures ShutOut(Settle(ws, op, found, now), user, w)
  {
  }

  lemma MemberOpsShutOutIff(ws: WorkspaceState, op: WorkspaceOp, now: nat, user: UserId, w: WorkspaceId)
    requires WorkspaceInv(ws) && ShutOut(ws, user, w) && !Creates(op) && !Puts(op)
    ensures ShutOut(Settle(ws, op, None, now), user, w) <==> !Adds(ws, op, user, w)
  {
    var ws' := Settle(ws, op, None, now);
    if op.AddChannelMemberOp? && Adds(ws, op, user, w) {
      assert InWorkspace(ws', op.c, w) && (op.c, user) in ws'.channelMembers;
    }
  }

  /** A second half lets the user back in exactly when it is of an `addMember` or `addChannelMember` for that user, or stores a
      new room or direct message with that user. */
  lemma SettleShutOutIff(ws: WorkspaceState, op: WorkspaceOp, found: Option<Channel>, now: nat, user: UserId, w: WorkspaceId)
    requires WorkspaceInv(ws) && FreshIds(ws, op) && GrantFits(ws, op, found) && ShutOut(ws, user, w)
    ensures ShutOut(Settle(ws, op, found, now), user, w) <==>
      !(Adds(ws, op, user, w) || (OpensFor(op, user, w) && NameIsFree(ws, op)))
  {
    hide NameIsFree;
    if Creates(op) {
      CreatesShutOutIff(ws, op, found, now, user, w);
    } else if Puts(op) {
      PutsKeepShutOut(ws, op, found, now, user, w);
    } else {
      MemberOpsShutOutIff(ws, op, now, user, w);
    }
  }

  /** A room or direct message for the user is refused while the user is shut out. */
  lemma ShutOutOpensNothing(ws: WorkspaceState, op: WorkspaceOp, user: UserId, w: WorkspaceId)
    requires ShutOut(ws, user, w) && OpensFor(op, user, w)
    ensures !Grants(ws, op)
  {
  }

  /** A whole call ends it exactly when it is a granted `addMember` or `addChannelMember` for that user. */
  lemma ApplyShutOutIff(ws: WorkspaceState, op: WorkspaceOp, now: nat, user: UserId, w: WorkspaceId)
    requires WorkspaceInv(ws) && FreshIds(ws, op) && ShutOut(ws, user, w)
    ensures ShutOut(Apply(ws, op, now), user, w) <==> !(Grants(ws, op) && Adds(ws, op, user, w))
  {
    hide Apply, Grants, Settle, WorkspaceInv, ShutOut, NameIsFree;
    HalvesMakeWhole(ws, op, now);
    if Grants(ws, op) {
      GrantedFits(ws, op);
      SettleShutOutIff(ws, op, FoundBy(ws, op), now, user, w);
      if OpensFor(op, user, w) {
        ShutOutOpensNothing(ws, op, user, w);
      }
    }
  }
}
