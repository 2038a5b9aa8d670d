/**
  The rank handlers: an absolute rank change, a promotion and a demotion in
  the primary group, an absolute rank change in a branch group, and the
  decision on a branch join request. Each handler is an ordered chain of
  checks that ends in at most one mutating platform call, followed by an
  audit post only when that call succeeded.
 */
module RankOps {
  import opened Common
  import opened Environment
  import opened Permissions
  import opened Ladder
  import opened Audit

  /** One setUserRole call: whom, in which group, to which role (by its id). */
  datatype RoleCall = RoleCall(userId: UserId, groupId: GroupId, role: Role)

  /** What the handler answers the caller with. */
  datatype Reply =
    | TargetNotFound
    | TargetNotInGroup
    | RolesUnavailable
    | RoleNotFound
    | Refused(denial: Denial)
    | BranchRefused(branchDenial: BranchDenial)
    | SelfTarget
    | AtTop
    | AtBottom
    /** The target's rank is not on the fetched ladder. */
    | OffLadder
    | Done
    | CallFailed

  /** The answer, the mutating call made (if any) and the audit post sent (if any). */
  datatype Outcome = Outcome(reply: Reply, call: Option<RoleCall>, post: Option<Post>)

  /** The text `name (rank)` under which ranks appear in the audit log. */
  function RankText(name: string, rank: int): (t: string)
    ensures |t| > |name| + 3
    ensures t[..|name|] == name
  {
    name + " (" + IntToString(rank) + ")"
  }

  /** The old-rank text of an absolute change: unknown when the target has no rank in the group. */
  function OldRankText(current: Option<RankInfo>): (t: string)
    ensures Truthy(t)
    ensures current.None? ==> t == "Bilinmiyor"
    ensures current.Some? ==> t == RankText(current.value.name, current.value.rank)
  {
    match current
    case None => "Bilinmiyor"
    case Some(info) => RankText(info.name, info.rank)
  }

  /** The outcome's call, if any, does not target the caller's own linked account. */
  predicate NotSelf(api: Api, links: map<string, string>, caller: string, o: Outcome)
  {
    o.call.Some? ==> ResolvedManagerId(api, links, caller) != Some(o.call.value.userId)
  }

  /**
    The mutation discipline every rank handler keeps: a call is made exactly
    when the answer is Done or CallFailed, Done means the call succeeded, and
    the audit is posted exactly when the call succeeded and the main webhook
    is usable.
   */
  predicate Committed(api: Api, cfg: Config, o: Outcome)
  {
    && (o.call.Some? <==> o.reply == Done || o.reply == CallFailed)
    && (o.call.Some? ==>
          (o.reply == Done <==> api.setUserRole(o.call.value.userId, o.call.value.groupId, o.call.value.role.id)))
    && (o.post.Some? <==> o.reply == Done && UsableUrl(cfg.webhookUrl))
    && (o.post.Some? ==> o.post.value.url == cfg.webhookUrl.value)
  }

  /** The permission check passes for the role's rank and the target is not the caller's own account. */
  predicate Clears(api: Api, cfg: Config, links: map<string, string>, caller: string, userId: UserId, role: Role)
  {
    CheckRankPermissions(api, cfg, links, caller, role.rank).Allowed?
    && ResolvedManagerId(api, links, caller) != Some(userId)
  }

  /** The final step of every rank handler: make the call, and post the entry only if it succeeded. */
  function Mutate(api: Api, cfg: Config, call: RoleCall, log: RankChangeLog): (o: Outcome)
    ensures o.call == Some(call)
    ensures Committed(api, cfg, o)
    ensures o.post.Some? ==> o.post.value.embed == RankEmbed(log)
  {
    if api.setUserRole(call.userId, call.groupId, call.role.id) then Outcome(Done, Some(call), RankChangePost(cfg, log))
    else Outcome(CallFailed, Some(call), None)
  }

  /**
    The entry a primary-group handler logs: its kind, the target as typed,
    the manager and the manager's role name as the permission check found
    them, the old rank text and the assigned role; no branch and no reason.
   */
  function PrimaryLog(perm: Permission, kind: RankChangeKind, nick: string, oldRank: string, role: Role): (d: RankChangeLog)
    requires perm.Allowed?
    ensures d.kind == kind && d.targetUser == nick
    ensures d.manager == perm.managerUsername && d.managerRank == perm.managerRank.name
    ensures d.oldRank == Some(oldRank) && d.newRank == RankText(role.name, role.rank)
    ensures d.branch.None? && d.reason.None?
  {
    RankChangeLog(kind, nick, perm.managerUsername, perm.managerRank.name,
                  Some(oldRank), RankText(role.name, role.rank), None, None)
  }

  /**
    The guarded tail shared by the three primary-group handlers: the
    permission check on the rank to assign, then the self-target check, then
    the mutation.
   */
  function Guarded(api: Api, cfg: Config, links: map<string, string>, caller: string,
                   userId: UserId, role: Role, kind: RankChangeKind, nick: string, oldRank: string): (o: Outcome)
    ensures o.reply.Refused? <==> CheckRankPermissions(api, cfg, links, caller, role.rank).Denied?
    ensures o.reply.Refused? ==> o.reply.denial == CheckRankPermissions(api, cfg, links, caller, role.rank).denial
    ensures o.reply == SelfTarget <==>
      CheckRankPermissions(api, cfg, links, caller, role.rank).Allowed?
      && ResolvedManagerId(api, links, caller) == Some(userId)
    ensures o.call.Some? <==>
      CheckRankPermissions(api, cfg, links, caller, role.rank).Allowed?
      && ResolvedManagerId(api, links, caller) != Some(userId)
    ensures o.call.Some? ==> o.call.value == RoleCall(userId, cfg.groupId, role)
    ensures NotSelf(api, links, caller, o) && Committed(api, cfg, o)
    ensures o.post.Some? ==>
      (Truthy(oldRank) ==> HasFieldValue(o.post.value.embed.fields, OLD_RANK_FIELD, oldRank))
      && HasFieldValue(o.post.value.embed.fields, NEW_RANK_FIELD, RankText(role.name, role.rank))
      && o.post.value.embed.title == RankTitle(kind)
    ensures o.reply == Done ==>
      o.post == RankChangePost(cfg, PrimaryLog(CheckRankPermissions(api, cfg, links, caller, role.rank),
                                               kind, nick, oldRank, role))
  {
    var perm := CheckRankPermissions(api, cfg, links, caller, role.rank);
    if perm.Denied? then Outcome(Refused(perm.denial), None, None)
    else if userId == perm.managerId then Outcome(SelfTarget, None, None)
    else Mutate(api, cfg, RoleCall(userId, cfg.groupId, role), PrimaryLog(perm, kind, nick, oldRank, role))
  }

  // ---------------------------------------------------------------------
  // Absolute change in the primary group
  // ---------------------------------------------------------------------

  /** The target resolves, the roles were fetched, and one of them has the requested name. */
  predicate NamedRoleFound(api: Api, cfg: Config, nick: string, rankName: string)
  {
    api.userIdByUsername(nick).Some? && api.groupRoles(cfg.groupId).Some?
    && FindRoleByName(api.groupRoles(cfg.groupId).value, rankName).Some?
  }

  /**
    handleRankChange: resolve the target, read its current rank (which may
    be absent), fetch the roles, find the role by case-insensitive name,
    then the guarded tail with that role's rank.
   */
  function HandleRankChange(api: Api, cfg: Config, links: map<string, string>,
                            caller: string, nick: string, rankName: string): (o: Outcome)
    ensures o.reply == TargetNotFound <==> api.userIdByUsername(nick).None?
    ensures o.reply == RolesUnavailable <==>
      api.userIdByUsername(nick).Some? && api.groupRoles(cfg.groupId).None?
    ensures o.reply == RoleNotFound <==>
      api.userIdByUsername(nick).Some? && api.groupRoles(cfg.groupId).Some?
      && forall q :: q in api.groupRoles(cfg.groupId).value ==> !SameNameIgnoringCase(q.name, rankName)
    ensures o.call.Some? ==>
      && api.userIdByUsername(nick) == Some(o.call.value.userId)
      && o.call.value.groupId == cfg.groupId
      && api.groupRoles(cfg.groupId).Some?
      && FindRoleByName(api.groupRoles(cfg.groupId).value, rankName) == Some(o.call.value.role)
      && o.call.value.role in api.groupRoles(cfg.groupId).value
      && SameNameIgnoringCase(o.call.value.role.name, rankName)
      && CheckRankPermissions(api, cfg, links, caller, o.call.value.role.rank).Allowed?
    // once the role is found: refused, self-target or a call, each exactly when its condition holds
    ensures o.reply.Refused? <==>
      NamedRoleFound(api, cfg, nick, rankName)
      && CheckRankPermissions(api, cfg, links, caller,
           FindRoleByName(api.groupRoles(cfg.groupId).value, rankName).value.rank).Denied?
    ensures o.reply == SelfTarget <==>
      NamedRoleFound(api, cfg, nick, rankName)
      && CheckRankPermissions(api, cfg, links, caller,
           FindRoleByName(api.groupRoles(cfg.groupId).value, rankName).value.rank).Allowed?
      && ResolvedManagerId(api, links, caller) == api.userIdByUsername(nick)
    ensures o.call.Some? <==>
      NamedRoleFound(api, cfg, nick, rankName)
      && Clears(api, cfg, links, caller, api.userIdByUsername(nick).value,
                FindRoleByName(api.groupRoles(cfg.groupId).value, rankName).value)
    ensures NotSelf(api, links, caller, o) && Committed(api, cfg, o)
    ensures o.post.Some? ==>
      HasFieldValue(o.post.value.embed.fields, OLD_RANK_FIELD,
                    OldRankText(api.rankInGroup(o.call.value.userId, cfg.groupId)))
    // the refusal carries the denial of the named role's rank
    ensures o.reply.Refused? ==>
      NamedRoleFound(api, cfg, nick, rankName)
      && o.reply.denial == CheckRankPermissions(api, cfg, links, caller,
                             FindRoleByName(api.groupRoles(cfg.groupId).value, rankName).value.rank).denial
    // the entry of a successful change: kind Change, the target, the manager, old and new rank
    ensures o.reply == Done ==>
      o.post == RankChangePost(cfg, PrimaryLog(CheckRankPermissions(api, cfg, links, caller, o.call.value.role.rank),
                                               Change, nick,
                                               OldRankText(api.rankInGroup(o.call.value.userId, cfg.groupId)),
                                               o.call.value.role))
  {
    match api.userIdByUsername(nick)
    case None => Outcome(TargetNotFound, None, None)
    case Some(userId) =>
      var current := api.rankInGroup(userId, cfg.groupId);
      match api.groupRoles(cfg.groupId)
      case None => Outcome(RolesUnavailable, None, None)
      case Some(roles) =>
        match FindRoleByName(roles, rankName)
        case None => Outcome(RoleNotFound, None, None)
        case Some(role) => Guarded(api, cfg, links, caller, userId, role, Change, nick, OldRankText(current))
  }

  // ---------------------------------------------------------------------
  // Promotion and demotion in the primary group
  // ---------------------------------------------------------------------

  /** The target resolves, has a rank in the primary group, and the group's roles were fetched. */
  predicate LadderKnown(api: Api, cfg: Config, nick: string)
  {
    api.userIdByUsername(nick).Some?
    && api.rankInGroup(api.userIdByUsername(nick).value, cfg.groupId).Some?
    && api.groupRoles(cfg.groupId).Some?
  }

  /** A permutation of a list has the same ladder facts as the list. */
  lemma SameLadder(a: seq<Role>, b: seq<Role>)
    requires multiset(a) == multiset(b)
    ensures forall c :: HasRank(a, c) <==> HasRank(b, c)
    ensures forall c :: IsTop(a, c) <==> IsTop(b, c)
    ensures forall c :: IsBottom(a, c) <==> IsBottom(b, c)
    ensures forall c, r :: IsNextRankUp(a, c, r) <==> IsNextRankUp(b, c, r)
    ensures forall c, r :: IsNextRankDown(a, c, r) <==> IsNextRankDown(b, c, r)
    ensures forall q :: q in a <==> q in b
  {
    assert forall q :: q in a <==> q in multiset(a);
    assert forall q :: q in b <==> q in multiset(b);
  }

  /** Copies the fetched roles into a fresh array and sorts it ascending by rank. */
  method SortedCopy(roles: seq<Role>) returns (sorted: seq<Role>)
    ensures SortedByRank(sorted)
    ensures multiset(sorted) == multiset(roles)
    ensures DistinctRanks(roles) ==> DistinctRanks(sorted)
    ensures forall c :: HasRank(sorted, c) <==> HasRank(roles, c)
    ensures forall c :: IsTop(sorted, c) <==> IsTop(roles, c)
    ensures forall c :: IsBottom(sorted, c) <==> IsBottom(roles, c)
    ensures forall c, r :: IsNextRankUp(sorted, c, r) <==> IsNextRankUp(roles, c, r)
    ensures forall c, r :: IsNextRankDown(sorted, c, r) <==> IsNextRankDown(roles, c, r)
    ensures forall q :: q in sorted <==> q in roles
  {
    var a := new Role[|roles|](i requires 0 <= i < |roles| => roles[i]);
    assert a[..] == roles;
    SortByRank(a);
    sorted := a[..];
    SameLadder(sorted, roles);
    if DistinctRanks(roles) {
      DistinctRanksPermutation(roles, sorted);
    }
  }

  /**
    handleRankPromotion: resolve the target, require a current rank, fetch
    and sort the roles, step one rung up, then the guarded tail with the next
    role's rank. A rank missing from the ladder is reported, not promoted.
   */
  method HandleRankPromotion(api: Api, cfg: Config, links: map<string, string>,
                             caller: string, nick: string) returns (o: Outcome)
    ensures o.reply == TargetNotFound <==> api.userIdByUsername(nick).None?
    ensures o.reply == TargetNotInGroup <==>
      api.userIdByUsername(nick).Some?
      && api.rankInGroup(api.userIdByUsername(nick).value, cfg.groupId).None?
    ensures o.reply == RolesUnavailable <==>
      api.userIdByUsername(nick).Some?
      && api.rankInGroup(api.userIdByUsername(nick).value, cfg.groupId).Some?
      && api.groupRoles(cfg.groupId).None?
    ensures o.reply == OffLadder <==>
      api.userIdByUsername(nick).Some?
      && api.rankInGroup(api.userIdByUsername(nick).value, cfg.groupId).Some?
      && api.groupRoles(cfg.groupId).Some?
      && !HasRank(api.groupRoles(cfg.groupId).value,
                  api.rankInGroup(api.userIdByUsername(nick).value, cfg.groupId).value.rank)
    ensures o.reply == AtTop ==>
      api.userIdByUsername(nick).Some?
      && api.rankInGroup(api.userIdByUsername(nick).value, cfg.groupId).Some?
      && api.groupRoles(cfg.groupId).Some?
      && IsTop(api.groupRoles(cfg.groupId).value,
               api.rankInGroup(api.userIdByUsername(nick).value, cfg.groupId).value.rank)
    // with distinct rank values, the refusal happens exactly at that end of the ladder
    ensures (api.userIdByUsername(nick).Some?
             && api.rankInGroup(api.userIdByUsername(nick).value, cfg.groupId).Some?
             && api.groupRoles(cfg.groupId).Some? && DistinctRanks(api.groupRoles(cfg.groupId).value)
             && IsTop(api.groupRoles(cfg.groupId).value,
                      api.rankInGroup(api.userIdByUsername(nick).value, cfg.groupId).value.rank))
      ==> o.reply == AtTop
    ensures o.reply != AtBottom
    ensures o.call.Some? ==>
      && api.userIdByUsername(nick) == Some(o.call.value.userId)
      && o.call.value.groupId == cfg.groupId
      && api.rankInGroup(o.call.value.userId, cfg.groupId).Some?
      && api.groupRoles(cfg.groupId).Some?
      && o.call.value.role in api.groupRoles(cfg.groupId).value
      && o.call.value.role.rank >= api.rankInGroup(o.call.value.userId, cfg.groupId).value.rank
      && (DistinctRanks(api.groupRoles(cfg.groupId).value) ==>
            IsNextRankUp(api.groupRoles(cfg.groupId).value,
                         api.rankInGroup(o.call.value.userId, cfg.groupId).value.rank, o.call.value.role))
      && CheckRankPermissions(api, cfg, links, caller, o.call.value.role.rank).Allowed?
    // with distinct rank values: refused, self-target or a call, each exactly when its condition
    // holds for the neighbouring role
    ensures LadderKnown(api, cfg, nick) && DistinctRanks(api.groupRoles(cfg.groupId).value) ==>
      var userId := api.userIdByUsername(nick).value;
      var roles := api.groupRoles(cfg.groupId).value;
      var cur := api.rankInGroup(userId, cfg.groupId).value.rank;
      && (o.reply.Refused? <==>
            HasRank(roles, cur)
            && exists r :: IsNextRankUp(roles, cur, r) && CheckRankPermissions(api, cfg, links, caller, r.rank).Denied?)
      && (o.reply == SelfTarget <==>
            HasRank(roles, cur)
            && exists r :: IsNextRankUp(roles, cur, r) && CheckRankPermissions(api, cfg, links, caller, r.rank).Allowed?
                           && ResolvedManagerId(api, links, caller) == Some(userId))
      && (o.call.Some? <==>
            HasRank(roles, cur) && exists r :: IsNextRankUp(roles, cur, r) && Clears(api, cfg, links, caller, userId, r))
    ensures NotSelf(api, links, caller, o) && Committed(api, cfg, o)
    // the refusal carries the denial of the neighbouring role's rank
    ensures o.reply.Refused? ==>
      LadderKnown(api, cfg, nick)
      && exists r :: r in api.groupRoles(cfg.groupId).value
           && r.rank >= api.rankInGroup(api.userIdByUsername(nick).value, cfg.groupId).value.rank
           && (DistinctRanks(api.groupRoles(cfg.groupId).value) ==>
                 IsNextRankUp(api.groupRoles(cfg.groupId).value,
                              api.rankInGroup(api.userIdByUsername(nick).value, cfg.groupId).value.rank, r))
           && CheckRankPermissions(api, cfg, links, caller, r.rank).Denied?
           && o.reply.denial == CheckRankPermissions(api, cfg, links, caller, r.rank).denial
    // the entry of a successful promotion: kind Promotion, the target, the manager, old and new rank
    ensures o.reply == Done ==>
      o.post == RankChangePost(cfg, PrimaryLog(CheckRankPermissions(api, cfg, links, caller, o.call.value.role.rank),
                                               Promotion, nick,
                                               RankText(api.rankInGroup(o.call.value.userId, cfg.groupId).value.name,
                                                        api.rankInGroup(o.call.value.userId, cfg.groupId).value.rank),
                                               o.call.value.role))
  {
    var target := api.userIdByUsername(nick);
    if target.None? {
      return Outcome(TargetNotFound, None, None);
    }
    var userId := target.value;
    var current := api.rankInGroup(userId, cfg.groupId);
    if current.None? {
      return Outcome(TargetNotInGroup, None, None);
    }
    var fetched := api.groupRoles(cfg.groupId);
    if fetched.None? {
      return Outcome(RolesUnavailable, None, None);
    }
    var sorted := SortedCopy(fetched.value);
    var rank := current.value.rank;
    var move := PromoteMove(sorted, rank);
    PromoteMoveIsNextRankUp(sorted, rank);
    if move.NotOnLadder? {
      return Outcome(OffLadder, None, None);
    } else if move.AlreadyAtTop? {
      return Outcome(AtTop, None, None);
    }
    var next := move.role;
    forall r | DistinctRanks(fetched.value) && IsNextRankUp(fetched.value, rank, r)
      ensures r == next
    {
      SameRankSameRole(fetched.value, r, next);
    }
    o := Guarded(api, cfg, links, caller, userId, next, Promotion, nick, RankText(current.value.name, rank));
  }

  /**
    handleRankDemotion: as the promotion, one rung down. In the source a rank
    missing from the ladder reads `sortedRoles[-2]` and the handler throws
    before any call; here it is reported.
   */
  method HandleRankDemotion(api: Api, cfg: Config, links: map<string, string>,
                            caller: string, nick: string) returns (o: Outcome)
    ensures o.reply == TargetNotFound <==> api.userIdByUsername(nick).None?
    ensures o.reply == TargetNotInGroup <==>
      api.userIdByUsername(nick).Some?
      && api.rankInGroup(api.userIdByUsername(nick).value, cfg.groupId).None?
    ensures o.reply == RolesUnavailable <==>
      api.userIdByUsername(nick).Some?
      && api.rankInGroup(api.userIdByUsername(nick).value, cfg.groupId).Some?
      && api.groupRoles(cfg.groupId).None?
    ensures o.reply == OffLadder <==>
      api.userIdByUsername(nick).Some?
      && api.rankInGroup(api.userIdByUsername(nick).value, cfg.groupId).Some?
      && api.groupRoles(cfg.groupId).Some?
      && !HasRank(api.groupRoles(cfg.groupId).value,
                  api.rankInGroup(api.userIdByUsername(nick).value, cfg.groupId).value.rank)
    ensures o.reply == AtBottom ==>
      api.userIdByUsername(nick).Some?
      && api.rankInGroup(api.userIdByUsername(nick).value, cfg.groupId).Some?
      && api.groupRoles(cfg.groupId).Some?
      && IsBottom(api.groupRoles(cfg.groupId).value,
               api.rankInGroup(api.userIdByUsername(nick).value, cfg.groupId).value.rank)
    // with distinct rank values, the refusal happens exactly at that end of the ladder
    ensures (api.userIdByUsername(nick).Some?
             && api.rankInGroup(api.userIdByUsername(nick).value, cfg.groupId).Some?
             && api.groupRoles(cfg.groupId).Some? && DistinctRanks(api.groupRoles(cfg.groupId).value)
             && IsBottom(api.groupRoles(cfg.groupId).value,
                      api.rankInGroup(api.userIdByUsername(nick).value, cfg.groupId).value.rank))
      ==> o.reply == AtBottom
    ensures o.reply != AtTop
    ensures o.call.Some? ==>
      && api.userIdByUsername(nick) == Some(o.call.value.userId)
      && o.call.value.groupId == cfg.groupId
      && api.rankInGroup(o.call.value.userId, cfg.groupId).Some?
      && api.groupRoles(cfg.groupId).Some?
      && o.call.value.role in api.groupRoles(cfg.groupId).value
      && o.call.value.role.rank <= api.rankInGroup(o.call.value.userId, cfg.groupId).value.rank
      && (DistinctRanks(api.groupRoles(cfg.groupId).value) ==>
            IsNextRankDown(api.groupRoles(cfg.groupId).value,
                           api.rankInGroup(o.call.value.userId, cfg.groupId).value.rank, o.call.value.role))
      && CheckRankPermissions(api, cfg, links, caller, o.call.value.role.rank).Allowed?
    // with distinct rank values: refused, self-target or a call, each exactly when its condition
    // holds for the neighbouring role
    ensures LadderKnown(api, cfg, nick) && DistinctRanks(api.groupRoles(cfg.groupId).value) ==>
      var userId := api.userIdByUsername(nick).value;
      var roles := api.groupRoles(cfg.groupId).value;
      var cur := api.rankInGroup(userId, cfg.groupId).value.rank;
      && (o.reply.Refused? <==>
            HasRank(roles, cur)
            && exists r :: IsNextRankDown(roles, cur, r) && CheckRankPermissions(api, cfg, links, caller, r.rank).Denied?)
      && (o.reply == SelfTarget <==>
            HasRank(roles, cur)
            && exists r :: IsNextRankDown(roles, cur, r) && CheckRankPermissions(api, cfg, links, caller, r.rank).Allowed?
                           && ResolvedManagerId(api, links, caller) == Some(userId))
      && (o.call.Some? <==>
            HasRank(roles, cur) && exists r :: IsNextRankDown(roles, cur, r) && Clears(api, cfg, links, caller, userId, r))
    ensures NotSelf(api, links, caller, o) && Committed(api, cfg, o)
    // the refusal carries the denial of the neighbouring role's rank
    ensures o.reply.Refused? ==>
      LadderKnown(api, cfg, nick)
      && exists r :: r in api.groupRoles(cfg.groupId).value
           && r.rank <= api.rankInGroup(api.userIdByUsername(nick).value, cfg.groupId).value.rank
           && (DistinctRanks(api.groupRoles(cfg.groupId).value) ==>
                 IsNextRankDown(api.groupRoles(cfg.groupId).value,
                              api.rankInGroup(api.userIdByUsername(nick).value, cfg.groupId).value.rank, r))
           && CheckRankPermissions(api, cfg, links, caller, r.rank).Denied?
           && o.reply.denial == CheckRankPermissions(api, cfg, links, caller, r.rank).denial
    // the entry of a successful demotion: kind Demotion, the target, the manager, old and new rank
    ensures o.reply == Done ==>
      o.post == RankChangePost(cfg, PrimaryLog(CheckRankPermissions(api, cfg, links, caller, o.call.value.role.rank),
                                               Demotion, nick,
                                               RankText(api.rankInGroup(o.call.value.userId, cfg.groupId).value.name,
                                                        api.rankInGroup(o.call.value.userId, cfg.groupId).value.rank),
                                               o.call.value.role))
  {
    var target := api.userIdByUsername(nick);
    if target.None? {
      return Outcome(TargetNotFound, None, None);
    }
    var userId := target.value;
    var current := api.rankInGroup(userId, cfg.groupId);
    if current.None? {
      return Outcome(TargetNotInGroup, None, None);
    }
    var fetched := api.groupRoles(cfg.groupId);
    if fetched.None? {
      return Outcome(RolesUnavailable, None, None);
    }
    var sorted := SortedCopy(fetched.value);
    var rank := current.value.rank;
    var move := DemoteMove(sorted, rank);
    DemoteMoveIsNextRankDown(sorted, rank);
    if move.NotOnLadder? {
      return Outcome(OffLadder, None, None);
    } else if move.AlreadyAtBottom? {
      return Outcome(AtBottom, None, None);
    }
    var prev := move.role;
    forall r | DistinctRanks(fetched.value) && IsNextRankDown(fetched.value, rank, r)
      ensures r == prev
    {
      SameRankSameRole(fetched.value, r, prev);
    }
    o := Guarded(api, cfg, links, caller, userId, prev, Demotion, nick, RankText(current.value.name, rank));
  }

  // ---------------------------------------------------------------------
  // Absolute change in a branch group
  // ---------------------------------------------------------------------

  /** The target resolves, has a rank in the branch group, and a branch role has the requested name. */
  predicate BranchRoleFound(api: Api, groupId: GroupId, nick: string, rankName: string)
  {
    api.userIdByUsername(nick).Some? && api.rankInGroup(api.userIdByUsername(nick).value, groupId).Some?
    && api.groupRoles(groupId).Some? && FindRoleByName(api.groupRoles(groupId).value, rankName).Some?
  }

  /**
    handleBranchRankChange: the branch authorisation (link, linked name,
    configured branch id, membership of the branch, branch manager
    allow-list; no ceiling), then the target, its rank in the branch, the
    branch roles, the role by case-insensitive name, the self-target check,
    and the mutation in the branch group.
   */
  function HandleBranchRankChange(api: Api, cfg: Config, links: map<string, string>, caller: string,
                                  nick: string, branch: string, rankName: string, reason: Option<string>): (o: Outcome)
    ensures o.reply.BranchRefused? <==> CheckBranchPermissions(api, cfg, links, caller, branch).BranchDenied?
    ensures o.reply.BranchRefused? ==>
      o.reply.branchDenial == CheckBranchPermissions(api, cfg, links, caller, branch).denial
    ensures BranchGroupId(cfg, branch).None? ==> o.call.None?
    ensures o.call.Some? ==>
      && CheckBranchPermissions(api, cfg, links, caller, branch).BranchAllowed?
      && BranchGroupId(cfg, branch) == Some(o.call.value.groupId)
      && api.userIdByUsername(nick) == Some(o.call.value.userId)
      && api.rankInGroup(o.call.value.userId, o.call.value.groupId).Some?
      && api.groupRoles(o.call.value.groupId).Some?
      && FindRoleByName(api.groupRoles(o.call.value.groupId).value, rankName) == Some(o.call.value.role)
      && o.call.value.role in api.groupRoles(o.call.value.groupId).value
      && SameNameIgnoringCase(o.call.value.role.name, rankName)
    ensures o.reply == RoleNotFound ==>
      BranchGroupId(cfg, branch).Some?
      && api.groupRoles(BranchGroupId(cfg, branch).value).Some?
      && forall q :: q in api.groupRoles(BranchGroupId(cfg, branch).value).value ==> !SameNameIgnoringCase(q.name, rankName)
    // once the branch check passes, each later answer exactly when its step decides
    ensures CheckBranchPermissions(api, cfg, links, caller, branch).BranchAllowed? ==>
      var g := CheckBranchPermissions(api, cfg, links, caller, branch).groupId;
      && (o.reply == TargetNotFound <==> api.userIdByUsername(nick).None?)
      && (o.reply == TargetNotInGroup <==>
            api.userIdByUsername(nick).Some? && api.rankInGroup(api.userIdByUsername(nick).value, g).None?)
      && (o.reply == RolesUnavailable <==>
            api.userIdByUsername(nick).Some? && api.rankInGroup(api.userIdByUsername(nick).value, g).Some?
            && api.groupRoles(g).None?)
      && (o.reply == RoleNotFound <==>
            api.userIdByUsername(nick).Some? && api.rankInGroup(api.userIdByUsername(nick).value, g).Some?
            && api.groupRoles(g).Some? && FindRoleByName(api.groupRoles(g).value, rankName).None?)
      && (o.reply == SelfTarget <==>
            BranchRoleFound(api, g, nick, rankName) && ResolvedManagerId(api, links, caller) == api.userIdByUsername(nick))
      && (o.call.Some? <==>
            BranchRoleFound(api, g, nick, rankName) && ResolvedManagerId(api, links, caller) != api.userIdByUsername(nick))
    ensures NotSelf(api, links, caller, o) && Committed(api, cfg, o)
    ensures o.post.Some? ==>
      && HasFieldValue(o.post.value.embed.fields, NEW_RANK_FIELD, RankText(o.call.value.role.name, o.call.value.role.rank))
      && (HasField(o.post.value.embed.fields, BRANCH_FIELD) <==> Truthy(branch))
      && (HasField(o.post.value.embed.fields, REASON_FIELD) <==> Present(reason))
    // the entry of a successful branch change: kind BranchChange, the target, the branch manager,
    // the old rank in the branch, the new role, the branch and the reason
    ensures o.reply == Done ==>
      o.post == RankChangePost(cfg, RankChangeLog(
                  BranchChange, nick,
                  CheckBranchPermissions(api, cfg, links, caller, branch).managerUsername,
                  CheckBranchPermissions(api, cfg, links, caller, branch).managerRank.name,
                  Some(RankText(api.rankInGroup(o.call.value.userId, o.call.value.groupId).value.name,
                                api.rankInGroup(o.call.value.userId, o.call.value.groupId).value.rank)),
                  RankText(o.call.value.role.name, o.call.value.role.rank), Some(branch), reason))
  {
    match CheckBranchPermissions(api, cfg, links, caller, branch)
    case BranchDenied(denial) => Outcome(BranchRefused(denial), None, None)
    case BranchAllowed(managerUsername, managerId, groupId, managerRank) =>
      match api.userIdByUsername(nick)
      case None => Outcome(TargetNotFound, None, None)
      case Some(userId) =>
        match api.rankInGroup(userId, groupId)
        case None => Outcome(TargetNotInGroup, None, None)
        case Some(current) =>
          match api.groupRoles(groupId)
          case None => Outcome(RolesUnavailable, None, None)
          case Some(roles) =>
            match FindRoleByName(roles, rankName)
            case None => Outcome(RoleNotFound, None, None)
            case Some(role) =>
              if userId == managerId then Outcome(SelfTarget, None, None)
              else
                var log := RankChangeLog(BranchChange, nick, managerUsername, managerRank.name,
                                         Some(RankText(current.name, current.rank)),
                                         RankText(role.name, role.rank), Some(branch), reason);
                Mutate(api, cfg, RoleCall(userId, groupId, role), log)
  }

  /**
    The branch id is checked before any rank lookup: for an unconfigured
    branch the answer does not depend on the rank oracle at all.
   */
  lemma UnconfiguredBranchConsultsNoRank(api: Api, cfg: Config, links: map<string, string>, caller: string,
                                         nick: string, branch: string, rankName: string, reason: Option<string>,
                                         otherRanks: (UserId, GroupId) -> Option<RankInfo>)
    requires BranchGroupId(cfg, branch).None?
    ensures HandleBranchRankChange(api.(rankInGroup := otherRanks), cfg, links, caller, nick, branch, rankName, reason)
         == HandleBranchRankChange(api, cfg, links, caller, nick, branch, rankName, reason)
    ensures HandleBranchRankChange(api, cfg, links, caller, nick, branch, rankName, reason).call.None?
  {
  }

  // ---------------------------------------------------------------------
  // Branch join requests
  // ---------------------------------------------------------------------

  /** One acceptJoinRequest (accept) or rejectJoinRequest (not accept) call. */
  datatype JoinCall = JoinCall(accept: bool, groupId: GroupId, userId: UserId)

  datatype JoinOutcome = JoinOutcome(reply: Reply, call: Option<JoinCall>, post: Option<Post>)

  /** Whether the platform reports the join decision as done. */
  predicate JoinSucceeded(api: Api, c: JoinCall)
  {
    if c.accept then api.acceptJoinRequest(c.groupId, c.userId) else api.rejectJoinRequest(c.groupId, c.userId)
  }

  /**
    handleBranchRequest: the branch authorisation, then the target, then
    accept exactly for the decision "kabul" and reject for any other value.
    There is no self-target check here. The entry goes to the branch webhook
    (or the main one) only when the decision went through.
   */
  function HandleBranchRequest(api: Api, cfg: Config, links: map<string, string>, caller: string,
                               nick: string, branch: string, decision: string, reason: Option<string>): (o: JoinOutcome)
    ensures o.reply.BranchRefused? <==> CheckBranchPermissions(api, cfg, links, caller, branch).BranchDenied?
    ensures o.reply.BranchRefused? ==>
      o.reply.branchDenial == CheckBranchPermissions(api, cfg, links, caller, branch).denial
    ensures o.reply == TargetNotFound <==>
      CheckBranchPermissions(api, cfg, links, caller, branch).BranchAllowed? && api.userIdByUsername(nick).None?
    ensures o.call.Some? <==>
      CheckBranchPermissions(api, cfg, links, caller, branch).BranchAllowed? && api.userIdByUsername(nick).Some?
    ensures o.call.Some? ==>
      && o.call.value.accept == (decision == ACCEPT)
      && BranchGroupId(cfg, branch) == Some(o.call.value.groupId)
      && api.userIdByUsername(nick) == Some(o.call.value.userId)
      && (o.reply == Done <==> JoinSucceeded(api, o.call.value))
      && (o.reply == CallFailed <==> !JoinSucceeded(api, o.call.value))
    ensures o.post.Some? <==>
      o.reply == Done && (UsableUrl(cfg.branchWebhookUrl) || UsableUrl(cfg.webhookUrl))
    ensures o.post.Some? ==>
      && o.post.value.embed.color == (if decision == ACCEPT then GREEN else RED)
      && HasFieldValue(o.post.value.embed.fields, BRANCH_FIELD, branch)
      && (HasField(o.post.value.embed.fields, REASON_FIELD) <==> Present(reason))
    // the entry of a successful decision: the decision, the target, the branch manager, the branch
    // and the reason, sent to the branch webhook or the main one
    ensures o.reply == Done ==>
      o.post == BranchRequestPost(cfg, BranchRequestLog(
                  decision, nick,
                  CheckBranchPermissions(api, cfg, links, caller, branch).managerUsername,
                  CheckBranchPermissions(api, cfg, links, caller, branch).managerRank.name,
                  branch, reason))
  {
    match CheckBranchPermissions(api, cfg, links, caller, branch)
    case BranchDenied(denial) => JoinOutcome(BranchRefused(denial), None, None)
    case BranchAllowed(managerUsername, managerId, groupId, managerRank) =>
      match api.userIdByUsername(nick)
      case None => JoinOutcome(TargetNotFound, None, None)
      case Some(userId) =>
        var call := JoinCall(decision == ACCEPT, groupId, userId);
        if JoinSucceeded(api, call) then
          var log := BranchRequestLog(decision, nick, managerUsername, managerRank.name, branch, reason);
          JoinOutcome(Done, Some(call), BranchRequestPost(cfg, log))
        else JoinOutcome(CallFailed, Some(call), None)
  }
}
