/**
 The workspace service and its in-memory persistence, updating the store in place; each method is proved to do
 exactly what `Workspaces` says.
 */
module WorkspaceService {
  import opened JsCollections
  import opened Ids
  import opened DmNames
  import opened Domain
  import Workspaces

  // ---------------------------------------------------------------- in-memory persistence

  predicate Removes(channels: JsMap<ChannelId, Channel>, member: (ChannelId, UserId), w: WorkspaceId, user: UserId) {
    member.1 == user && member.0 in channels.vals && channels.vals[member.0].workspaceId == w
  }

  /** Members are visited one by one, in any order, while entries are being deleted. */
  method DeleteMemberAndChannelMemberships(store: InMemoryStore, w: WorkspaceId, user: UserId) returns (existed: bool)
    modifies store`channelMembers, store`workspaceMembers
    ensures store.channelMembers ==
      set p | p in old(store.channelMembers) && !(p.1 == user && Workspaces.InWorkspace(old(store.WorkspaceView()), p.0, w))
    ensures store.workspaceMembers == old(store.workspaceMembers) - {(w, user)}
    ensures existed == ((w, user) in old(store.workspaceMembers))
  {
    var before := store.channelMembers;
    var remaining := before;
    while remaining != {}
      invariant remaining <= before && store.workspaceMembers == old(store.workspaceMembers)
      invariant forall p :: p in store.channelMembers <==> p in before && (p in remaining || !Removes(store.channels, p, w, user))
      decreases |remaining|
    {
      var member :| member in remaining;
      remaining := remaining - {member};
      if Removes(store.channels, member, w, user) {
        store.channelMembers := store.channelMembers - {member};
      }
    }
    existed := (w, user) in store.workspaceMembers;
    store.workspaceMembers := store.workspaceMembers - {(w, user)};
  }

  method UpdateMemberRole(store: InMemoryStore, w: WorkspaceId, user: UserId, role: Role) returns (target: Option<Role>)
    modifies store`workspaceMembers
    ensures target == if (w, user) in old(store.workspaceMembers) then Some(role) else None
    ensures store.workspaceMembers ==
      if (w, user) in old(store.workspaceMembers) then old(store.workspaceMembers)[(w, user) := role] else old(store.workspaceMembers)
  {
    if (w, user) !in store.workspaceMembers {
      return None;
    }
    store.workspaceMembers := store.workspaceMembers[(w, user) := role];
    target := Some(role);
  }

  /** The loop over `memberIds` that follows storing a new channel. */
  method StoreChannel(store: InMemoryStore, channel: Channel, memberIds: seq<UserId>)
    modifies store`channels, store`channelMembers
    ensures store.WorkspaceView() == Workspaces.WithChannel(old(store.WorkspaceView()), channel, set u | u in memberIds)
  {
    store.channels := store.channels.Set(channel.id, channel);
    for i := 0 to |memberIds|
      invariant store.channels == old(store.channels).Set(channel.id, channel)
      invariant store.channelMembers == old(store.channelMembers) + (set u | u in memberIds[..i] :: (channel.id, u))
    {
      store.channelMembers := store.channelMembers + {(channel.id, memberIds[i])};
      assert memberIds[..i + 1] == memberIds[..i] + [memberIds[i]];
    }
    assert memberIds[..|memberIds|] == memberIds;
    assert (set u | u in memberIds :: (channel.id, u)) == (set u | u in (set u | u in memberIds) :: (channel.id, u));
  }

  method ListChannelMembers(store: InMemoryStore, id: ChannelId) returns (members: set<UserId>)
    ensures forall user :: user in members <==> (id, user) in store.channelMembers
  {
    members := set p | p in store.channelMembers && p.0 == id :: p.1;
    assert forall user :: (id, user) in store.channelMembers ==> (id, user).1 in members;
  }

  /** The scan over the channels in creation order, stopping at the first of that name. */
  method FindByName(store: InMemoryStore, w: WorkspaceId, name: string) returns (found: Option<ChannelId>)
    requires store.Valid()
    ensures found == Workspaces.FindByName(store.WorkspaceView(), w, name)
  {
    var keys := store.channels.keys;
    var ws := store.WorkspaceView();
    for i := 0 to |keys|
      invariant Workspaces.FindByName(ws, w, name) == FindFirst(keys[i..], Workspaces.Named(ws, w, name))
    {
      var channel := store.channels.vals[keys[i]];
      assert keys[i..][1..] == keys[i + 1..];
      if channel.workspaceId == w && channel.name == name {
        return Some(keys[i]);
      }
    }
    found := None;
  }

  // ---------------------------------------------------------------- the service

  method CanAccessChannel(store: InMemoryStore, user: UserId, id: ChannelId) returns (allowed: bool)
    ensures allowed == Workspaces.CanAccessChannel(store.WorkspaceView(), user, id)
  {
    if id !in store.channels.vals || store.channels.vals[id].deletedAt.Some? {
      return false;
    }
    var channel := store.channels.vals[id];
    if channel.kind == Room && channel.name == "general" {
      return (channel.workspaceId, user) in store.workspaceMembers;
    }
    var members := ListChannelMembers(store, id);
    allowed := user in members;
  }

  method CanManageChannel(store: InMemoryStore, user: UserId, id: ChannelId) returns (allowed: bool)
    ensures allowed == Workspaces.CanManageChannel(store.WorkspaceView(), user, id)
  {
    if id !in store.channels.vals {
      return false;
    }
    var channel := store.channels.vals[id];
    if channel.createdById == Some(user) {
      return true;
    }
    var role := Workspaces.GetRole(store.WorkspaceView(), user, channel.workspaceId);
    allowed := role == Some(Owner) || role == Some(Admin);
  }

  lemma DeletedIsNotListed(ws: WorkspaceState, actor: UserId, w: WorkspaceId, ch: Channel)
    requires ws.channels.Get(ch.id) == Some(ch)
    ensures Workspaces.Listed(ws, actor, w)(ch) <==>
      ch.workspaceId == w && ch.deletedAt.None? && Workspaces.CanAccessChannel(ws, actor, ch.id)
  {
  }

  /** The workspace's channels, without the deleted ones, then without those the actor may not access. */
  method ListChannels(store: InMemoryStore, actor: UserId, w: WorkspaceId) returns (channels: seq<Channel>)
    requires store.Valid() && forall c :: c in store.channels.vals ==> store.channels.vals[c].id == c
    ensures channels == Workspaces.ListChannels(store.WorkspaceView(), actor, w)
  {
    if !Workspaces.CanAccessWorkspace(store.WorkspaceView(), actor, w) {
      return [];
    }
    hide Workspaces.CanAccessChannel;
    var ws := store.WorkspaceView();
    var all := store.channels.Values();
    channels := [];
    for i := 0 to |all|
      invariant channels == Filter(all[..i], Workspaces.Listed(ws, actor, w))
    {
      FilterOneMore(all[..i], all[i], Workspaces.Listed(ws, actor, w));
      var k := ws.channels.keys[i];
      assert k in ws.channels.vals && all[i] == ws.channels.vals[k] && all[i].id == k;
      DeletedIsNotListed(ws, actor, w, all[i]);
      assert all[..i + 1] == all[..i] + [all[i]];
      if all[i].workspaceId == w && all[i].deletedAt.None? {
        var allowed := CanAccessChannel(store, actor, all[i].id);
        if allowed {
          channels := channels + [all[i]];
        }
      }
    }
    assert all[..|all|] == all;
  }

  method CreateWorkspace(store: InMemoryStore, actor: UserId, name: string, w: WorkspaceId, general: ChannelId, now: nat)
    modifies store
    ensures store.View() == old(store.View()).(ws := Workspaces.CreateWorkspace(old(store.WorkspaceView()), actor, name, w, general, now))
  {
    var channel := Channel(general, w, "general", None, Room, Normal, false, Some(actor), None, None, now);
    store.workspaces := store.workspaces[w := name];
    store.workspaceMembers := store.workspaceMembers[(w, actor) := Owner];
    store.channels := store.channels.Set(general, channel);
    store.channelMembers := store.channelMembers + {(general, actor)};
  }

  method AddMember(
      store: InMemoryStore, actor: UserId, w: WorkspaceId, user: UserId, role: Role) returns (outcome: Outcome<Role>)
    modifies store
    ensures var (ws', r) := Workspaces.AddMember(old(store.WorkspaceView()), actor, w, user, role);
      store.View() == old(store.View()).(ws := ws') && outcome == r
  {
    var actorRole := Workspaces.GetRole(store.WorkspaceView(), actor, w);
    if actorRole != Some(Owner) && actorRole != Some(Admin) {
      return Fail(Forbidden);
    }
    if role == Owner && actorRole != Some(Owner) {
      return Fail(Forbidden);
    }
    store.workspaceMembers := store.workspaceMembers[(w, user) := role];
    outcome := Ok(role);
  }

  method RemoveMember(store: InMemoryStore, actor: UserId, w: WorkspaceId, user: UserId) returns (outcome: Outcome<bool>)
    modifies store
    ensures var (ws', r) := Workspaces.RemoveMember(old(store.WorkspaceView()), actor, w, user);
      store.View() == old(store.View()).(ws := ws') && outcome == r
  {
    var actorRole := Workspaces.GetRole(store.WorkspaceView(), actor, w);
    var targetRole := Workspaces.GetRole(store.WorkspaceView(), user, w);
    if actorRole != Some(Owner) && actorRole != Some(Admin) {
      return Fail(Forbidden);
    }
    if targetRole == Some(Owner) && actor != user {
      return Fail(Forbidden);
    }
    if actorRole == Some(Admin) && targetRole == Some(Admin) {
      return Fail(Forbidden);
    }
    var existed := DeleteMemberAndChannelMemberships(store, w, user);
    outcome := Ok(existed);
  }

  method TransferOwnership(
      store: InMemoryStore, actor: UserId, w: WorkspaceId, newOwner: UserId) returns (outcome: Outcome<Role>)
    modifies store
    ensures var (ws', r) := Workspaces.TransferOwnership(old(store.WorkspaceView()), actor, w, newOwner);
      store.View() == old(store.View()).(ws := ws') && outcome == r
  {
    var actorRole := Workspaces.GetRole(store.WorkspaceView(), actor, w);
    if actorRole != Some(Owner) {
      return Fail(Forbidden);
    }
    var target := UpdateMemberRole(store, w, newOwner, Owner);
    if target.None? {
      return Fail(NotFound);
    }
    var _ := UpdateMemberRole(store, w, actor, Admin);
    outcome := Ok(Owner);
  }

  method CreateChannel(
      store: InMemoryStore, actor: UserId, w: WorkspaceId, name: string, mode: ChannelMode, isPrivate: bool,
      id: ChannelId, now: nat)
    returns (outcome: Outcome<Channel>)
    requires store.Valid()
    modifies store
    ensures var (ws', r) := Workspaces.CreateChannel(old(store.WorkspaceView()), actor, w, name, mode, isPrivate, id, now);
      store.View() == old(store.View()).(ws := ws') && outcome == r
  {
    if !Workspaces.CanAccessWorkspace(store.WorkspaceView(), actor, w) {
      return Fail(Forbidden);
    }
    var taken := FindByName(store, w, name);
    if taken.Some? {
      return Fail(Conflict);
    }
    var channel := Channel(id, w, name, None, Room, mode, isPrivate, Some(actor), None, None, now);
    StoreChannel(store, channel, [actor]);
    assert (set u | u in [actor]) == {actor};
    outcome := Ok(channel);
  }

  method CreateOrGetDm(
      store: InMemoryStore, actor: UserId, w: WorkspaceId, peer: UserId, mode: ChannelMode, id: ChannelId,
      now: nat)
    returns (outcome: Outcome<Channel>)
    requires store.Valid()
    modifies store
    ensures var (ws', r) := Workspaces.CreateOrGetDm(old(store.WorkspaceView()), actor, w, peer, mode, id, now);
      store.View() == old(store.View()).(ws := ws') && outcome == r
  {
    var ws := store.WorkspaceView();
    if !Workspaces.CanAccessWorkspace(ws, actor, w) || !Workspaces.CanAccessWorkspace(ws, peer, w) {
      return Fail(Forbidden);
    }
    var name := DmName(actor, peer, mode);
    var existing := FindByName(store, w, name);
    if existing.Some? {
      return Ok(store.channels.vals[existing.value]);
    }
    var channel := Channel(id, w, name, None, DirectMessage, mode, true, None, None, None, now);
    StoreChannel(store, channel, [actor, peer]);
    assert (set u | u in [actor, peer]) == {actor, peer};
    outcome := Ok(channel);
  }

  method UpdateChannel(
      store: InMemoryStore, actor: UserId, id: ChannelId, name: Option<string>,
      description: Option<Option<string>>)
    returns (outcome: Outcome<Channel>)
    modifies store
    ensures var (ws', r) := Workspaces.UpdateChannel(old(store.WorkspaceView()), actor, id, name, description);
      store.View() == old(store.View()).(ws := ws') && outcome == r
  {
    if id !in store.channels.vals {
      return Fail(NotFound);
    }
    if !Workspaces.CanManageChannel(store.WorkspaceView(), actor, id) {
      return Fail(Forbidden);
    }
    var channel := store.channels.vals[id];
    if name.Some? {
      channel := channel.(name := name.value);
    }
    if description.Some? {
      channel := channel.(description := description.value);
    }
    store.channels := store.channels.Set(channel.id, channel);
    outcome := Ok(channel);
  }

  method ArchiveChannel(store: InMemoryStore, actor: UserId, id: ChannelId, now: nat) returns (outcome: Outcome<Channel>)
    modifies store
    ensures var (ws', r) := Workspaces.ArchiveChannel(old(store.WorkspaceView()), actor, id, now);
      store.View() == old(store.View()).(ws := ws') && outcome == r
  {
    if !Workspaces.CanManageChannel(store.WorkspaceView(), actor, id) {
      return Fail(Forbidden);
    }
    var channel := store.channels.vals[id].(archivedAt := Some(now));
    store.channels := store.channels.Set(channel.id, channel);
    outcome := Ok(channel);
  }

  method DeleteChannel(store: InMemoryStore, actor: UserId, id: ChannelId, now: nat) returns (outcome: Outcome<Channel>)
    modifies store
    ensures var (ws', r) := Workspaces.DeleteChannel(old(store.WorkspaceView()), actor, id, now);
      store.View() == old(store.View()).(ws := ws') && outcome == r
  {
    if !Workspaces.CanManageChannel(store.WorkspaceView(), actor, id) {
      return Fail(Forbidden);
    }
    var channel := store.channels.vals[id].(deletedAt := Some(now));
    store.channels := store.channels.Set(channel.id, channel);
    outcome := Ok(channel);
  }

  method AddChannelMember(store: InMemoryStore, actor: UserId, id: ChannelId, user: UserId) returns (outcome: Outcome<()>)
    modifies store
    ensures var (ws', r) := Workspaces.AddChannelMember(old(store.WorkspaceView()), actor, id, user);
      store.View() == old(store.View()).(ws := ws') && outcome == r
  {
    var ws := store.WorkspaceView();
    if id !in store.channels.vals || !Workspaces.CanAccessWorkspace(ws, actor, store.channels.vals[id].workspaceId)
       || !Workspaces.CanManageChannel(ws, actor, id) {
      return Fail(Forbidden);
    }
    var channel := store.channels.vals[id];
    if channel.archivedAt.Some? || channel.deletedAt.Some? {
      return Fail(Forbidden);
    }
    store.channelMembers := store.channelMembers + {(id, user)};
    outcome := Ok(());
  }

  method RemoveChannelMember(
      store: InMemoryStore, actor: UserId, id: ChannelId, user: UserId) returns (outcome: Outcome<bool>)
    modifies store
    ensures var (ws', r) := Workspaces.RemoveChannelMember(old(store.WorkspaceView()), actor, id, user);
      store.View() == old(store.View()).(ws := ws') && outcome == r
  {
    var ws := store.WorkspaceView();
    if id !in store.channels.vals || !Workspaces.CanAccessWorkspace(ws, actor, store.channels.vals[id].workspaceId) {
      return Fail(Forbidden);
    }
    if !Workspaces.CanManageChannel(ws, actor, id) && actor != user {
      return Fail(Forbidden);
    }
    outcome := Ok((id, user) in store.channelMembers);
    store.channelMembers := store.channelMembers - {(id, user)};
  }
}
