/**
 Who may do what in a workspace and with its bots: when each call is refused, what a granted one changes, and where roles and
 memberships can come from.
 */
module Authority {
  import opened JsCollections
  import opened Ids
  import opened DmNames
  import opened Domain
  import opened Workspaces
  import opened MessageStore
  import opened Bots
  import opened Effects

  ghost predicate Has(ws: WorkspaceState, w: WorkspaceId, user: UserId, role: Role) {
    (w, user) in ws.roles && ws.roles[(w, user)] == role
  }

  /** Owners and admins. */
  ghost predicate Leads(ws: WorkspaceState, w: WorkspaceId, user: UserId) {
    Has(ws, w, user, Owner) || Has(ws, w, user, Admin)
  }

  /** Whoever created a channel, and the owners and admins of its workspace, manage it. */
  ghost predicate Manages(ws: WorkspaceState, user: UserId, c: ChannelId) {
    c in ws.channels.vals && (ws.channels.vals[c].createdById == Some(user) || Leads(ws, ws.channels.vals[c].workspaceId, user))
  }

  // ---------------------------------------------------------------- members

  /** A new workspace has its name, its creator as owner, and the public room `general` with the creator in it; nothing else changes. */
  lemma CreateWorkspaceIs(ws: WorkspaceState, actor: UserId, name: string, w: WorkspaceId, general: ChannelId, now: nat)
    requires w !in ws.workspaces && general !in ws.channels.vals
    ensures var ws' := CreateWorkspace(ws, actor, name, w, general, now);
      && ws'.workspaces == ws.workspaces[w := name]
      && Has(ws', w, actor, Owner) && ws'.roles - {(w, actor)} == ws.roles - {(w, actor)}
      && general in ws'.channels.vals
      && var ch := ws'.channels.vals[general];
      && ch.id == general && ch.workspaceId == w && ch.name == "general" && ch.kind == Room && ch.mode == Normal && !ch.isPrivate
      && ch.createdById == Some(actor) && ch.createdAt == now
      && ch.description == None && ch.archivedAt == None && ch.deletedAt == None
      && AddsChannel(ws, ws'.(roles := ws.roles, workspaces := ws.workspaces), ch, {actor})
  {
  }

  lemma AddMemberIff(ws: WorkspaceState, actor: UserId, w: WorkspaceId, user: UserId, role: Role)
    ensures var (ws', outcome) := AddMember(ws, actor, w, user, role);
      && (outcome == Ok(role) <==> Leads(ws, w, actor) && (role == Owner ==> Has(ws, w, actor, Owner)))
      && (outcome == Ok(role) || (outcome == Fail(Forbidden) && ws' == ws))
      && (outcome.Ok? ==> Has(ws', w, user, role) && ws' == ws.(roles := ws'.roles) && ws'.roles - {(w, user)} == ws.roles - {(w, user)})
  {
  }

  /** Only owners and admins remove; no one but the owner removes an owner; an admin never removes an admin, not even
      one's own membership.  The answer says whether there was a member to remove. */
  lemma RemoveMemberIff(ws: WorkspaceState, actor: UserId, w: WorkspaceId, user: UserId)
    ensures var (ws', outcome) := RemoveMember(ws, actor, w, user);
      && (outcome.Ok? <==>
            && Leads(ws, w, actor) && (Has(ws, w, user, Owner) ==> actor == user)
            && !(Has(ws, w, actor, Admin) && Has(ws, w, user, Admin)))
      && (outcome.Fail? ==> outcome.error == Forbidden && ws' == ws)
      && (outcome.Ok? ==> (outcome.value <==> (w, user) in ws.roles))
  {
  }

  lemma TransferOwnershipIff(ws: WorkspaceState, actor: UserId, w: WorkspaceId, user: UserId)
    ensures var (ws', outcome) := TransferOwnership(ws, actor, w, user);
      && (outcome == Ok(Owner) <==> Has(ws, w, actor, Owner) && (w, user) in ws.roles)
      && (outcome.Fail? ==> ws' == ws && outcome.error == if Has(ws, w, actor, Owner) then NotFound else Forbidden)
      && (outcome.Ok? ==>
            && Has(ws', w, actor, Admin) && (user != actor ==> Has(ws', w, user, Owner))
            && ws' == ws.(roles := ws'.roles) && ws'.roles - {(w, user), (w, actor)} == ws.roles - {(w, user), (w, actor)})
  {
  }

  // ---------------------------------------------------------------- channels

  ghost predicate NameTaken(ws: WorkspaceState, w: WorkspaceId, name: string) {
    exists c :: c in ws.channels.vals && ws.channels.vals[c].workspaceId == w && ws.channels.vals[c].name == name
  }

  lemma FoundIffTaken(ws: WorkspaceState, w: WorkspaceId, name: string)
    requires ws.channels.Valid()
    ensures FindByName(ws, w, name).Some? <==> NameTaken(ws, w, name)
    ensures FindByName(ws, w, name).Some? ==>
      var c := FindByName(ws, w, name).value;
      c in ws.channels.vals && ws.channels.vals[c].workspaceId == w && ws.channels.vals[c].name == name
  {
    if c :| c in ws.channels.vals && ws.channels.vals[c].workspaceId == w && ws.channels.vals[c].name == name {
      assert c in ws.channels.keys;
    }
  }

  /** One new channel, with these members and nothing else changed. */
  ghost predicate AddsChannel(ws: WorkspaceState, ws': WorkspaceState, ch: Channel, members: set<UserId>) {
    && ws'.channels.keys == ws.channels.keys + [ch.id] && ws'.channels.vals == ws.channels.vals[ch.id := ch]
    && (forall c, u :: (c, u) in ws'.channelMembers <==> (c, u) in ws.channelMembers || (c == ch.id && u in members))
    && ws'.roles == ws.roles && ws'.workspaces == ws.workspaces
  }

  /** Any member of the workspace opens a room under a name that no channel there bears; its creator is in it. */
  lemma CreateChannelIff(
      ws: WorkspaceState, actor: UserId, w: WorkspaceId, name: string, mode: ChannelMode, isPrivate: bool, c: ChannelId,
      now: nat)
    requires ws.channels.Valid() && c !in ws.channels.vals
    ensures var (ws', outcome) := CreateChannel(ws, actor, w, name, mode, isPrivate, c, now);
      && (outcome.Ok? <==> (w, actor) in ws.roles && !NameTaken(ws, w, name))
      && (outcome.Fail? ==> ws' == ws && outcome.error == if (w, actor) in ws.roles then Conflict else Forbidden)
      && (outcome.Ok? ==>
            var ch := outcome.value;
            && ch.id == c && ch.workspaceId == w && ch.name == name && ch.kind == Room && ch.mode == mode && ch.isPrivate == isPrivate
            && ch.createdById == Some(actor) && ch.createdAt == now
            && ch.description == None && ch.archivedAt == None && ch.deletedAt == None
            && AddsChannel(ws, ws', ch, {actor}))
  {
    hide FindByName;
    FoundIffTaken(ws, w, name);
  }

  /** Two members of the workspace get a channel of their pair's name: one that bears it, untouched, or a new private direct message
      with both.  Asked again, by either of them, the store answers with the same channel and changes nothing. */
  lemma {:induction false} DmIsCreatedOnce(
      ws: WorkspaceState, actor: UserId, w: WorkspaceId, peer: UserId, mode: ChannelMode, c: ChannelId, now: nat,
      ws': WorkspaceState, c': ChannelId, now': nat)
    requires WorkspaceInv(ws) && c !in ws.channels.vals
    requires ws' == CreateOrGetDm(ws, actor, w, peer, mode, c, now).0
    ensures var name := DmName(actor, peer, mode);
      var outcome := CreateOrGetDm(ws, actor, w, peer, mode, c, now).1;
      && (outcome.Ok? <==> (w, actor) in ws.roles && (w, peer) in ws.roles)
      && (outcome.Fail? ==> ws' == ws && outcome.error == Forbidden)
      && (outcome.Ok? ==>
            && outcome.value.workspaceId == w && outcome.value.name == name
            && ws'.channels.Get(outcome.value.id) == Some(outcome.value))
      && (outcome.Ok? && NameTaken(ws, w, name) ==> ws' == ws)
      && (outcome.Ok? && !NameTaken(ws, w, name) ==>
            var ch := outcome.value;
            && ch.id == c && ch.kind == DirectMessage && ch.mode == mode && ch.isPrivate && ch.createdById == None
            && ch.createdAt == now && ch.description == None && ch.archivedAt == None && ch.deletedAt == None
            && AddsChannel(ws, ws', ch, {actor, peer}))
      && (outcome.Ok? ==>
            && CreateOrGetDm(ws', actor, w, peer, mode, c', now') == (ws', outcome)
            && CreateOrGetDm(ws', peer, w, actor, mode, c', now') == (ws', outcome))
  {
    hide FindByName, DmName, NameTaken, AddsChannel;
    var name := DmName(actor, peer, mode);
    DmNameIsSymmetric(actor, peer, mode);
    FoundIffTaken(ws, w, name);
    if FindByName(ws, w, name).None? {
      var ch := Channel(c, w, name, None, DirectMessage, mode, true, None, None, None, now);
      NewChannelIsFound(ws, ch, {actor, peer});
      AddsIt(ws, ch, {actor, peer});
    }
  }

  lemma AddsIt(ws: WorkspaceState, ch: Channel, members: set<UserId>)
    requires ch.id !in ws.channels.vals
    ensures AddsChannel(ws, WithChannel(ws, ch, members), ch, members)
  {
  }

  lemma NewChannelIsFound(ws: WorkspaceState, ch: Channel, members: set<UserId>)
    requires ws.channels.Valid() && ch.id !in ws.channels.vals && FindByName(ws, ch.workspaceId, ch.name).None?
    ensures FindByName(WithChannel(ws, ch, members), ch.workspaceId, ch.name) == Some(ch.id)
  {
    var ws' := WithChannel(ws, ch, members);
    assert ch.id in ws'.channels.keys;
    assert forall c :: c in ws.channels.keys ==> !Named(ws, ch.workspaceId, ch.name)(c);
  }

  /** Exactly one channel is replaced, in its place. */
  ghost predicate OnlyChannelChanges(ws: WorkspaceState, ws': WorkspaceState, c: ChannelId) {
    && ws' == ws.(channels := ws'.channels) && ws'.channels.keys == ws.channels.keys
    && ws'.channels.vals.Keys == ws.channels.vals.Keys && ws'.channels.vals - {c} == ws.channels.vals - {c}
  }

  /** A missing channel is not found, others are refused to all who do not manage them; only the parts of the request that are
      present change anything, and a present description may also be taken away. */
  lemma UpdateChannelIff(
      ws: WorkspaceState, actor: UserId, c: ChannelId, name: Option<string>, description: Option<Option<string>>)
    requires WorkspaceInv(ws)
    ensures var (ws', outcome) := UpdateChannel(ws, actor, c, name, description);
      && (outcome.Ok? <==> Manages(ws, actor, c))
      && (outcome.Fail? ==> ws' == ws && outcome.error == if c in ws.channels.vals then Forbidden else NotFound)
      && (outcome.Ok? ==>
            && OnlyChannelChanges(ws, ws', c)
            && var ch, ch' := ws.channels.vals[c], ws'.channels.vals[c];
            && outcome.value == ch'
            && (name == None ==> ch'.name == ch.name) && (name.Some? ==> name == Some(ch'.name))
            && (description == None ==> ch'.description == ch.description) && (description.Some? ==> description == Some(ch'.description))
            && ch' == ch.(name := ch'.name, description := ch'.description))
  {
  }

  /** Archiving and deleting set their time, and nothing else, for those who manage the channel. */
  lemma ArchiveAndDeleteIff(ws: WorkspaceState, actor: UserId, c: ChannelId, now: nat)
    requires WorkspaceInv(ws)
    ensures var (archived, outcome) := ArchiveChannel(ws, actor, c, now);
      && (outcome.Ok? <==> Manages(ws, actor, c)) && (outcome.Fail? ==> archived == ws && outcome.error == Forbidden)
      && (outcome.Ok? ==>
            && OnlyChannelChanges(ws, archived, c) && outcome.value == archived.channels.vals[c]
            && outcome.value.archivedAt == Some(now) && outcome.value == ws.channels.vals[c].(archivedAt := outcome.value.archivedAt))
    ensures var (deleted, outcome) := DeleteChannel(ws, actor, c, now);
      && (outcome.Ok? <==> Manages(ws, actor, c)) && (outcome.Fail? ==> deleted == ws && outcome.error == Forbidden)
      && (outcome.Ok? ==>
            && OnlyChannelChanges(ws, deleted, c) && outcome.value == deleted.channels.vals[c]
            && outcome.value.deletedAt == Some(now) && outcome.value == ws.channels.vals[c].(deletedAt := outcome.value.deletedAt))
  {
  }

  /** A manager who is still in the workspace adds anyone to a channel that is neither archived nor deleted. */
  lemma AddChannelMemberIff(ws: WorkspaceState, actor: UserId, c: ChannelId, user: UserId)
    ensures var (ws', outcome) := AddChannelMember(ws, actor, c, user);
      && (outcome.Ok? <==>
            && Manages(ws, actor, c) && (ws.channels.vals[c].workspaceId, actor) in ws.roles
            && ws.channels.vals[c].archivedAt == None && ws.channels.vals[c].deletedAt == None)
      && (outcome.Fail? ==> ws' == ws && outcome.error == Forbidden)
      && (outcome.Ok? ==> ws' == ws.(channelMembers := ws'.channelMembers) && ws'.channelMembers == ws.channelMembers + {(c, user)})
  {
  }

  /** Anyone in the workspace leaves a channel; a manager also removes others.  The answer says whether there was one to remove. */
  lemma RemoveChannelMemberIff(ws: WorkspaceState, actor: UserId, c: ChannelId, user: UserId)
    ensures var (ws', outcome) := RemoveChannelMember(ws, actor, c, user);
      && (outcome.Ok? <==>
            && c in ws.channels.vals && (ws.channels.vals[c].workspaceId, actor) in ws.roles
            && (actor == user || Manages(ws, actor, c)))
      && (outcome.Fail? ==> ws' == ws && outcome.error == Forbidden)
      && (outcome.Ok? ==>
            && (outcome.value <==> (c, user) in ws.channelMembers)
            && ws' == ws.(channelMembers := ws'.channelMembers) && ws'.channelMembers == ws.channelMembers - {(c, user)})
  {
  }

  /** The channel list of a workspace member: every channel of it that the member may access, once, in creation order; empty for
      anyone else. */
  lemma {:induction false} ListedIff(ws: WorkspaceState, actor: UserId, w: WorkspaceId, ch: Channel)
    requires WorkspaceInv(ws)
    ensures ch in ListChannels(ws, actor, w) <==>
      && (w, actor) in ws.roles && ws.channels.Get(ch.id) == Some(ch) && ch.workspaceId == w && CanAccessChannel(ws, actor, ch.id)
  {
    hide CanAccessChannel;
    var values := ws.channels.Values();
    if ch.id in ws.channels.vals && ws.channels.vals[ch.id] == ch {
      var i :| 0 <= i < |ws.channels.keys| && ws.channels.keys[i] == ch.id;
      assert values[i] == ch;
    }
    if ch in values {
      var i :| 0 <= i < |values| && values[i] == ch;
      assert ws.channels.vals[ws.channels.keys[i]].id == ws.channels.keys[i];
    }
  }

  // ---------------------------------------------------------------- where roles and memberships come from

  /** A user becomes an owner only by creating the workspace, or at the hands of an owner of it. */
  lemma OwnersComeFromOwners(ws: WorkspaceState, op: WorkspaceOp, now: nat, w: WorkspaceId, user: UserId)
    requires Has(Apply(ws, op, now), w, user, Owner) && !Has(ws, w, user, Owner)
    ensures (op.CreateWorkspaceOp? && op.w == w && op.actor == user) || Has(ws, w, op.actor, Owner)
  {
    hide FindByName, DmName;
  }

  /** An owner stops being one only by leaving, by handing the workspace over, or by an `addMember` of an
      owner or admin that names a lesser role. */
  lemma OwnersLoseItBy(ws: WorkspaceState, op: WorkspaceOp, now: nat, w: WorkspaceId, user: UserId)
    requires FreshIds(ws, op) && WorkspaceInv(ws) && Has(ws, w, user, Owner)
    ensures Has(Apply(ws, op, now), w, user, Owner) <==>
      !((op.RemoveMemberOp? && op.w == w && op.user == user && op.actor == user)
        || (op.TransferOwnershipOp? && op.w == w && op.actor == user && (w, op.user) in ws.roles)
        || (op.AddMemberOp? && op.w == w && op.user == user && op.role != Owner && Leads(ws, w, op.actor)))
  {
    hide FindByName, DmName;
  }

  /** Any other change of a role, too, is made by an owner or admin of that workspace. */
  lemma RolesNeedAuthority(ws: WorkspaceState, op: WorkspaceOp, now: nat, w: WorkspaceId, user: UserId)
    requires GetRole(Apply(ws, op, now), user, w) != GetRole(ws, user, w)
    ensures (op.CreateWorkspaceOp? && op.w == w && op.actor == user) || Leads(ws, w, op.actor)
  {
    hide FindByName, DmName;
  }

  /** A user gets into a channel only by creating it, as one of its pair, or when someone who manages it and is in its workspace
      adds the user. */
  lemma MembersAreLetIn(ws: WorkspaceState, op: WorkspaceOp, now: nat, c: ChannelId, user: UserId)
    requires (c, user) in Apply(ws, op, now).channelMembers && (c, user) !in ws.channelMembers
    ensures
      || (op.CreateWorkspaceOp? && op.general == c && op.actor == user)
      || (op.CreateChannelOp? && op.c == c && op.actor == user && (op.w, user) in ws.roles)
      || (op.CreateOrGetDmOp? && op.c == c && user in {op.actor, op.peer} && (op.w, user) in ws.roles)
      || (op.AddChannelMemberOp? && op.c == c && op.user == user && Manages(ws, op.actor, c)
          && (ws.channels.vals[c].workspaceId, op.actor) in ws.roles)
  {
    hide FindByName, DmName;
  }

  // ---------------------------------------------------------------- bots

  /** The bot table has the same bots in the same places, but for bot `b`. */
  ghost predicate OnlyBotChanges(bot: BotState, bot': BotState, b: BotId) {
    && bot' == bot.(bots := bot'.bots) && bot'.bots.keys == bot.bots.keys
    && bot'.bots.vals.Keys == bot.bots.vals.Keys && bot'.bots.vals - {b} == bot.bots.vals - {b}
  }

  /** A bot joins a channel exactly when both exist and the channel is normal; it leaves one it is in. */
  lemma BotMembershipIff(s: State, b: BotId, c: ChannelId)
    ensures var (bot', outcome) := AddToChannel(s, b, c);
      var known := b in s.bot.bots.vals && c in s.ws.channels.vals;
      && (outcome.Ok? <==> known && s.ws.channels.vals[c].mode == Normal)
      && (outcome.Fail? ==> bot' == s.bot && outcome.error == if known then E2eBotNotAllowed else NotFound)
      && (outcome.Ok? ==>
            && OnlyBotChanges(s.bot, bot', b)
            && bot'.bots.vals[b] == s.bot.bots.vals[b].(channelIds := bot'.bots.vals[b].channelIds)
            && bot'.bots.vals[b].channelIds == s.bot.bots.vals[b].channelIds + {c})
    ensures var (bot', outcome) := RemoveFromChannel(s, b, c);
      var known := b in s.bot.bots.vals && c in s.ws.channels.vals;
      && (outcome.Ok? <==> known && c in s.bot.bots.vals[b].channelIds) && (outcome.Fail? ==> bot' == s.bot && outcome.error == NotFound)
      && (outcome.Ok? ==>
            && OnlyBotChanges(s.bot, bot', b)
            && bot'.bots.vals[b] == s.bot.bots.vals[b].(channelIds := bot'.bots.vals[b].channelIds)
            && bot'.bots.vals[b].channelIds == s.bot.bots.vals[b].channelIds - {c})
  {
    if b in s.bot.bots.vals && c !in s.bot.bots.vals[b].channelIds {
      assert s.bot.bots.vals[b].channelIds - {c} == s.bot.bots.vals[b].channelIds;
      assert s.bot.bots.vals[b := s.bot.bots.vals[b]] == s.bot.bots.vals;
    }
  }

  /** An installed bot starts in no channel and with no subscription, also when it was installed before. */
  lemma InstalledIs(bot: BotState, w: WorkspaceId, manifest: Manifest)
    ensures var bot' := Install(bot, w, manifest);
      && bot'.bots.Get(manifest.id) == Some(Bot(w, manifest, {}, {})) && bot'.queues == bot.queues
      && (forall b :: b != manifest.id ==> bot'.bots.Get(b) == bot.bots.Get(b))
  {
  }

  lemma SubscriptionIff(bot: BotState, b: BotId, eventType: EventType)
    ensures var (bot', outcome) := Subscribe(bot, b, eventType);
      && (outcome.Ok? <==> b in bot.bots.vals) && (outcome.Fail? ==> bot' == bot && outcome.error == NotFound)
      && (outcome.Ok? ==>
            && OnlyBotChanges(bot, bot', b)
            && bot'.bots.vals[b] == bot.bots.vals[b].(subscribedEvents := bot'.bots.vals[b].subscribedEvents)
            && bot'.bots.vals[b].subscribedEvents == bot.bots.vals[b].subscribedEvents + {eventType})
    ensures var (bot', outcome) := Unsubscribe(bot, b, eventType);
      && (outcome.Ok? <==> b in bot.bots.vals) && (outcome.Fail? ==> bot' == bot && outcome.error == NotFound)
      && (outcome.Ok? ==>
            && OnlyBotChanges(bot, bot', b)
            && bot'.bots.vals[b] == bot.bots.vals[b].(subscribedEvents := bot'.bots.vals[b].subscribedEvents)
            && bot'.bots.vals[b].subscribedEvents == bot.bots.vals[b].subscribedEvents - {eventType})
  {
  }

  /** A bot's message is accepted exactly when bot and channel exist, the channel is normal, and the bot may write and is in it; on a
      free client id it stores the input, without a reply and without recording files, and publishes nothing. */
  lemma {:induction false} SendBotMessageIff(s: State, b: BotId, input: SendInput, id: MessageId, now: nat)
    requires MessageInv(s.msg) && id !in s.msg.messages.vals
    ensures var (s', outcome) := SendBotMessage(s, b, input, id, now);
      var known := b in s.bot.bots.vals && input.channelId in s.ws.channels.vals;
      var normal := known && s.ws.channels.vals[input.channelId].mode == Normal;
      var key := (b, input.clientMsgId);
      && (outcome.Ok? <==> normal && s.bot.bots.vals[b].manifest.canWrite && input.channelId in s.bot.bots.vals[b].channelIds)
      && (outcome.Fail? ==>
            s' == s && outcome.error == if !known then NotFound else if !normal then E2eBotNotAllowed else Forbidden)
      && (outcome.Ok? && key in s.msg.byClientId ==> s' == s && Some(outcome.value) == s.msg.messages.Get(s.msg.byClientId[key]))
      && (outcome.Ok? && key !in s.msg.byClientId ==>
            && StoresTheInput(s.msg, s'.msg, b, input.(replyTo := None), {}, id, now) && outcome == Ok(s'.msg.messages.vals[id])
            && s' == s.(msg := s'.msg))
  {
    hide MessageInv;
    SendFinds(s.msg, (b, input.clientMsgId));
  }

  ghost predicate HelpsIn(bot: BotState, b: BotId, w: WorkspaceId) {
    && b in bot.bots.vals && bot.bots.vals[b].workspaceId == w
    && exists command :: command in bot.bots.vals[b].manifest.commands && command.name == "/help"
  }

  /** A command is refused in a missing or E2E channel.  Elsewhere it is published, first of all; and when it asks for help and a bot
      of the workspace offers it, that bot's list of commands is stored as its message. */
  lemma {:induction false} InvokeCommandIs(
      s: State, w: WorkspaceId, c: ChannelId, user: UserId, command: string, args: string, id: MessageId, now: nat)
    requires MessageInv(s.msg) && s.bot.bots.Valid() && id !in s.msg.messages.vals
    requires forall b :: (b, BotReply(id)) !in s.msg.byClientId
    ensures var r := InvokeCommand(s, w, c, user, command, args, id, now);
      var asks := command == "/help" || command == "help";
      && (r.outcome.Ok? <==> c in s.ws.channels.vals && s.ws.channels.vals[c].mode == Normal)
      && (r.outcome.Fail? ==> r.state == s && r.published == [] && r.outcome.error == E2eBotNotAllowed)
      && (r.outcome.Ok? ==>
            && r.published == [BotEvent(CommandInvoked, w, c, CommandPayload(user, command, args), now)]
            && r.state.ws == s.ws && (r.outcome.value.HelpReply? <==> asks && exists b :: HelpsIn(s.bot, b, w)))
      && (r.outcome.Ok? && r.outcome.value.Dispatched? ==> r.state.msg == s.msg && r.outcome.value.event == r.published[0])
      && (r.outcome.Ok? && r.outcome.value.HelpReply? ==>
            var b := r.outcome.value.botId;
            && HelpsIn(s.bot, b, w) && r.outcome.value.messageId == id
            && r.outcome.value.text == HelpText(s.bot.bots.vals[b].manifest.commands)
            && StoresTheInput(s.msg, r.state.msg, b, SendInput(w, c, BotReply(id), Text(r.outcome.value.text, []), None), {}, id, now))
  {
    hide MessageInv, HelpText, StoresTheInput, Create;
    if IsNormal(s.ws, c) {
      var event := BotEvent(CommandInvoked, w, c, CommandPayload(user, command, args), now);
      HelperIs(s.bot, event, w);
      var helper := FindHelpBot(Publish(s.bot, event), w);
      if helper.Some? {
        SentAsHelp(s, HelpMessage(id, w, c, helper.value, HelpText(s.bot.bots.vals[helper.value].manifest.commands), now), w, c);
      }
    }
  }

  lemma HelperIs(bot: BotState, event: BotEvent, w: WorkspaceId)
    requires bot.bots.Valid()
    ensures var helper := FindHelpBot(Publish(bot, event), w);
      && Publish(bot, event).bots == bot.bots
      && (helper.Some? <==> exists b :: HelpsIn(bot, b, w)) && (helper.Some? ==> HelpsIn(bot, helper.value, w))
  {
    hide Matches;
    var bot' := Publish(bot, event);
    if b :| HelpsIn(bot, b, w) {
      assert b in bot'.bots.keys && OffersHelp(bot', b, w);
    }
    if FindHelpBot(bot', w).Some? {
      assert OffersHelp(bot', FindHelpBot(bot', w).value, w) && HelpsIn(bot, FindHelpBot(bot', w).value, w);
    }
  }

  lemma SentAsHelp(s: State, m: Message, w: WorkspaceId, c: ChannelId)
    requires MessageInv(s.msg) && m.id !in s.msg.messages.vals && ClientKey(m) !in s.msg.byClientId
    requires m.clientMsgId == BotReply(m.id) && m.workspaceId == w && m.channelId == c && m.status == StatusSent
    requires m.replyTo == None && m.origin == None && m.editedAt == None && m.deletedAt == None
    ensures var input := SendInput(w, c, BotReply(m.id), m.content, None);
      StoresTheInput(s.msg, Create(s.msg, m, {}).0, m.senderId, input, {}, m.id, m.createdAt)
  {
    hide MessageInv;
    SendFinds(s.msg, ClientKey(m));
  }

  /** The help text has one line for each command, its name and description, in the manifest's order. */
  lemma {:induction false} HelpLinesJoin(a: seq<Command>, b: seq<Command>)
    ensures HelpText(a) == "Available commands:\n" + HelpLines(a)
    ensures a == [] ==> HelpLines(a) == ""
    ensures |a| == 1 ==> HelpLines(a) == a[0].name + " - " + a[0].description
    ensures a != [] && b != [] ==> HelpLines(a + b) == HelpLines(a) + "\n" + HelpLines(b)
  {
    if a != [] && b != [] {
      var line := a[0].name + " - " + a[0].description;
      assert (a + b)[1..] == a[1..] + b;
      if |a| == 1 {
        assert a[1..] + b == b;
      } else {
        HelpLinesJoin(a[1..], b);
        var x, y := HelpLines(a[1..]), HelpLines(b);
        assert line + "\n" + (x + "\n" + y) == (line + "\n" + x) + "\n" + y;
      }
    }
  }
}
