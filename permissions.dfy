/**
  The permission resolver: who may change ranks in the primary group and up
  to which rank value, and who may manage a branch group. Each check is an
  ordered chain of denials; the first failing step decides the answer.
 */
module Permissions {
  import opened Common
  import opened Environment

  /**
    getLinkedRobloxUsername: the username linked to a Discord id. The source
    returns `links[id] || null`, so an empty stored name reads as unlinked.
   */
  function LinkedUsername(links: map<string, string>, discordId: string): (r: Option<string>)
    ensures r.Some? <==> discordId in links && Truthy(links[discordId])
    ensures r.Some? ==> r.value == links[discordId]
  {
    if discordId in links && Truthy(links[discordId]) then Some(links[discordId]) else None
  }

  /** The Roblox user id of the caller's linked account, if both exist. */
  function ResolvedManagerId(api: Api, links: map<string, string>, caller: string): (r: Option<UserId>)
    ensures r.Some? <==>
      LinkedUsername(links, caller).Some? && api.userIdByUsername(LinkedUsername(links, caller).value).Some?
    ensures r.Some? ==> r == api.userIdByUsername(LinkedUsername(links, caller).value)
  {
    match LinkedUsername(links, caller)
    case None => None
    case Some(name) => api.userIdByUsername(name)
  }

  /** The caller's role in a group, through the linked account; None when any step is missing. */
  function ManagerRankIn(api: Api, links: map<string, string>, caller: string, groupId: GroupId): (r: Option<RankInfo>)
    ensures r.Some? ==> ResolvedManagerId(api, links, caller).Some?
    ensures ResolvedManagerId(api, links, caller).Some? ==>
      r == api.rankInGroup(ResolvedManagerId(api, links, caller).value, groupId)
  {
    match ResolvedManagerId(api, links, caller)
    case None => None
    case Some(id) => api.rankInGroup(id, groupId)
  }

  /** Whether an optional allow-list admits a rank value (no list admits all). */
  predicate RankAllowed(allowList: Option<seq<int>>, rank: int)
  {
    allowList.None? || rank in allowList.value
  }

  datatype Denial =
    | NotLinked
    | LinkedAccountNotFound
    | NotInGroup
    | RankNotAllowed(allowed: seq<int>, rank: int)
    | AboveCeiling(ceiling: int, target: int)

  datatype Permission =
    | Denied(denial: Denial)
    | Allowed(managerRank: RankInfo, managerUsername: string, managerId: UserId, maxAllowedRank: int)

  /**
    The highest rank value a caller may assign: the lesser of their own rank
    and the configured maximum. With no configured maximum the caller's own
    rank is the ceiling (see the findings in README.md for what the source
    does instead).
   */
  function Ceiling(ownRank: int, maxRankCanAssign: Option<int>): (c: int)
    ensures c <= ownRank
    ensures maxRankCanAssign.Some? ==> c <= maxRankCanAssign.value
    ensures c == ownRank || (maxRankCanAssign.Some? && c == maxRankCanAssign.value)
  {
    match maxRankCanAssign
    case None => ownRank
    case Some(m) => if m < ownRank then m else ownRank
  }

  /**
    The ceiling step as the source writes it: `Math.min(rank, max)` is NaN
    when the maximum is missing, and `target > NaN` is false, so the request
    passes whatever its target.
   */
  function CeilingPassesAsWritten(ownRank: int, maxRankCanAssign: Option<int>, target: int): (b: bool)
    ensures b <==> maxRankCanAssign.None? || target <= Ceiling(ownRank, maxRankCanAssign)
  {
    match maxRankCanAssign
    case None => true
    case Some(m) => !(target > (if m < ownRank then m else ownRank))
  }

  /** With a configured maximum, the source's step and Ceiling agree. */
  lemma CeilingAgreesWhenConfigured(ownRank: int, max: int, target: int)
    ensures CeilingPassesAsWritten(ownRank, Some(max), target) == (target <= Ceiling(ownRank, Some(max)))
  {
  }

  /** Without one, the source lets a rank-5 caller assign rank 200. */
  lemma MissingMaximumDisablesCeiling()
    ensures CeilingPassesAsWritten(5, None, 200)
    ensures !(200 <= Ceiling(5, None))
  {
  }

  /**
    checkRankPermissions: may `caller` assign `targetRank` in the primary
    group? Denials come in the source's order: not linked, linked name not
    found, caller not in the group, caller's rank not on the allow-list,
    target above the ceiling.
   */
  function CheckRankPermissions(api: Api, cfg: Config, links: map<string, string>,
                                caller: string, targetRank: int): (r: Permission)
    // the first step: a link
    ensures r == Denied(NotLinked) <==> LinkedUsername(links, caller).None?
    // the second step: the linked name resolves
    ensures r == Denied(LinkedAccountNotFound) <==>
      LinkedUsername(links, caller).Some? && api.userIdByUsername(LinkedUsername(links, caller).value).None?
    // the third step: membership
    ensures r == Denied(NotInGroup) <==>
      ResolvedManagerId(api, links, caller).Some?
      && api.rankInGroup(ResolvedManagerId(api, links, caller).value, cfg.groupId).None?
    // what an allowed answer certifies
    ensures r.Allowed? ==>
      && LinkedUsername(links, caller) == Some(r.managerUsername)
      && api.userIdByUsername(r.managerUsername) == Some(r.managerId)
      && ResolvedManagerId(api, links, caller) == Some(r.managerId)
      && api.rankInGroup(r.managerId, cfg.groupId) == Some(r.managerRank)
      && RankAllowed(cfg.allowedRanks, r.managerRank.rank)
      && r.maxAllowedRank <= r.managerRank.rank
      && (cfg.maxRankCanAssign.Some? ==> r.maxAllowedRank <= cfg.maxRankCanAssign.value)
      && targetRank <= r.maxAllowedRank
    // and, conversely, every caller that passes all steps is allowed
    ensures
      (ResolvedManagerId(api, links, caller).Some?
       && api.rankInGroup(ResolvedManagerId(api, links, caller).value, cfg.groupId).Some?
       && var own := api.rankInGroup(ResolvedManagerId(api, links, caller).value, cfg.groupId).value.rank;
          RankAllowed(cfg.allowedRanks, own) && targetRank <= Ceiling(own, cfg.maxRankCanAssign))
      ==> r.Allowed?
    // the fourth step: the allow-list, reporting the caller's own rank
    ensures r.Denied? && r.denial.RankNotAllowed? <==>
      ManagerRankIn(api, links, caller, cfg.groupId).Some?
      && !RankAllowed(cfg.allowedRanks, ManagerRankIn(api, links, caller, cfg.groupId).value.rank)
    ensures r.Denied? && r.denial.RankNotAllowed? ==>
      && cfg.allowedRanks == Some(r.denial.allowed) && r.denial.rank !in r.denial.allowed
      && r.denial.rank == ManagerRankIn(api, links, caller, cfg.groupId).value.rank
    // the fifth step, only after the allow-list: the ceiling, reporting its value
    ensures r.Denied? && r.denial.AboveCeiling? <==>
      ManagerRankIn(api, links, caller, cfg.groupId).Some?
      && RankAllowed(cfg.allowedRanks, ManagerRankIn(api, links, caller, cfg.groupId).value.rank)
      && targetRank > Ceiling(ManagerRankIn(api, links, caller, cfg.groupId).value.rank, cfg.maxRankCanAssign)
    ensures r.Denied? && r.denial.AboveCeiling? ==>
      && r.denial.target == targetRank && r.denial.ceiling < targetRank
      && r.denial.ceiling == Ceiling(ManagerRankIn(api, links, caller, cfg.groupId).value.rank, cfg.maxRankCanAssign)
    ensures r.Allowed? ==> r.maxAllowedRank == Ceiling(r.managerRank.rank, cfg.maxRankCanAssign)
  {
    match LinkedUsername(links, caller)
    case None => Denied(NotLinked)
    case Some(managerUsername) =>
      match api.userIdByUsername(managerUsername)
      case None => Denied(LinkedAccountNotFound)
      case Some(managerId) =>
        match api.rankInGroup(managerId, cfg.groupId)
        case None => Denied(NotInGroup)
        case Some(managerRank) =>
          if cfg.allowedRanks.Some? && managerRank.rank !in cfg.allowedRanks.value then
            Denied(RankNotAllowed(cfg.allowedRanks.value, managerRank.rank))
          else
            var maxAllowedRank := Ceiling(managerRank.rank, cfg.maxRankCanAssign);
            if targetRank > maxAllowedRank then Denied(AboveCeiling(maxAllowedRank, targetRank))
            else Allowed(managerRank, managerUsername, managerId, maxAllowedRank)
  }

  /**
    A caller of rank 10 under a configured maximum of 8 has ceiling 8, and a
    request for rank 10 is refused with that ceiling in the answer.
   */
  lemma CeilingBelowOwnRankRefuses(api: Api, cfg: Config, links: map<string, string>,
                                   caller: string, managerId: UserId, roleName: string)
    requires ResolvedManagerId(api, links, caller) == Some(managerId)
    requires api.rankInGroup(managerId, cfg.groupId) == Some(RankInfo(roleName, 10))
    requires cfg.allowedRanks.None? && cfg.maxRankCanAssign == Some(8)
    ensures CheckRankPermissions(api, cfg, links, caller, 10) == Denied(AboveCeiling(8, 10))
    ensures CheckRankPermissions(api, cfg, links, caller, 8).Allowed?
  {
  }

  datatype BranchDenial =
    | BranchNotLinked
    | BranchLinkedAccountNotFound
    | BranchNotConfigured(branch: string)
    | NotInBranch(branch: string)
    | NotBranchManager(allowed: seq<int>, rank: int)

  datatype BranchPermission =
    | BranchDenied(denial: BranchDenial)
    | BranchAllowed(managerUsername: string, managerId: UserId, groupId: GroupId, managerRank: RankInfo)

  /**
    The authorisation prefix shared by handleBranchRankChange and
    handleBranchRequest: link, linked name, branch group id (before any rank
    lookup), membership of the branch group, branch manager allow-list. There
    is no ceiling on the branch side.
   */
  function CheckBranchPermissions(api: Api, cfg: Config, links: map<string, string>,
                                  caller: string, branch: string): (r: BranchPermission)
    ensures r == BranchDenied(BranchNotLinked) <==> LinkedUsername(links, caller).None?
    ensures r == BranchDenied(BranchLinkedAccountNotFound) <==>
      LinkedUsername(links, caller).Some? && ResolvedManagerId(api, links, caller).None?
    ensures r == BranchDenied(BranchNotConfigured(branch)) <==>
      ResolvedManagerId(api, links, caller).Some? && BranchGroupId(cfg, branch).None?
    ensures r.BranchAllowed? <==>
      && ResolvedManagerId(api, links, caller).Some?
      && BranchGroupId(cfg, branch).Some?
      && api.rankInGroup(ResolvedManagerId(api, links, caller).value, BranchGroupId(cfg, branch).value).Some?
      && RankAllowed(cfg.branchManagerRanks,
           api.rankInGroup(ResolvedManagerId(api, links, caller).value, BranchGroupId(cfg, branch).value).value.rank)
    ensures r == BranchDenied(NotInBranch(branch)) <==>
      BranchGroupId(cfg, branch).Some? && ResolvedManagerId(api, links, caller).Some?
      && ManagerRankIn(api, links, caller, BranchGroupId(cfg, branch).value).None?
    ensures r.BranchDenied? && r.denial.NotBranchManager? <==>
      BranchGroupId(cfg, branch).Some?
      && ManagerRankIn(api, links, caller, BranchGroupId(cfg, branch).value).Some?
      && !RankAllowed(cfg.branchManagerRanks, ManagerRankIn(api, links, caller, BranchGroupId(cfg, branch).value).value.rank)
    ensures r.BranchDenied? && r.denial.NotBranchManager? ==>
      && cfg.branchManagerRanks == Some(r.denial.allowed) && r.denial.rank !in r.denial.allowed
      && r.denial.rank == ManagerRankIn(api, links, caller, BranchGroupId(cfg, branch).value).value.rank
    ensures r.BranchAllowed? ==>
      && LinkedUsername(links, caller) == Some(r.managerUsername)
      && ResolvedManagerId(api, links, caller) == Some(r.managerId)
      && BranchGroupId(cfg, branch) == Some(r.groupId)
      && r.groupId != GROUP_PLACEHOLDER
      && api.rankInGroup(r.managerId, r.groupId) == Some(r.managerRank)
  {
    match LinkedUsername(links, caller)
    case None => BranchDenied(BranchNotLinked)
    case Some(managerUsername) =>
      match api.userIdByUsername(managerUsername)
      case None => BranchDenied(BranchLinkedAccountNotFound)
      case Some(managerId) =>
        match BranchGroupId(cfg, branch)
        case None => BranchDenied(BranchNotConfigured(branch))
        case Some(groupId) =>
          match api.rankInGroup(managerId, groupId)
          case None => BranchDenied(NotInBranch(branch))
          case Some(managerRank) =>
            if cfg.branchManagerRanks.Some? && managerRank.rank !in cfg.branchManagerRanks.value then
              BranchDenied(NotBranchManager(cfg.branchManagerRanks.value, managerRank.rank))
            else BranchAllowed(managerUsername, managerId, groupId, managerRank)
  }
}
