/**
  What the core reads from outside: the Roblox platform, reached through the
  bot's Roblox client, and the configuration document. Every platform call is
  an oracle here, a function value the model consults; nothing about the
  platform's own behaviour is assumed beyond its signature.
 */
module Environment {
  import opened Common

  /** The Roblox calls the core makes, one field per call. */
  datatype Api = Api(
    /** getUserIdByUsername: the user id of a username, if the user exists. */
    userIdByUsername: string -> Option<UserId>,
    /** getUserRankInGroup: the user's role in the group, absent when not a member. */
    rankInGroup: (UserId, GroupId) -> Option<RankInfo>,
    /** getGroupRoles: the group's role list in platform order, absent on failure. */
    groupRoles: GroupId -> Option<seq<Role>>,
    /** setUserRole: whether assigning the role (by role id) succeeded. */
    setUserRole: (UserId, GroupId, int) -> bool,
    /** verifyUserOwnership: whether the user's profile carries the code. */
    verifyOwnership: (UserId, string) -> bool,
    /** acceptJoinRequest / rejectJoinRequest: whether the decision went through. */
    acceptJoinRequest: (GroupId, UserId) -> bool,
    rejectJoinRequest: (GroupId, UserId) -> bool
  )

  /** The settings of the configuration document that the core consults. */
  datatype Config = Config(
    groupId: GroupId,
    /** Rank values allowed to change ranks in the primary group (absent: anyone). */
    allowedRanks: Option<seq<int>>,
    /** Highest rank value assignable in the primary group (may be missing). */
    maxRankCanAssign: Option<int>,
    /** Branch name to branch group id. */
    branchGroups: map<string, string>,
    /** Rank values allowed to manage a branch (absent: anyone in the branch). */
    branchManagerRanks: Option<seq<int>>,
    webhookUrl: Option<string>,
    branchWebhookUrl: Option<string>,
    /** Discord role ids of the support staff. */
    supportRoleIds: seq<string>
  )

  /** The value shipped in the sample configuration for an unset branch group. */
  const GROUP_PLACEHOLDER: string := "GRUP_ID_BURAYA"

  /** The value shipped in the sample configuration for an unset webhook. */
  const WEBHOOK_PLACEHOLDER: string := "WEBHOOK_URL_BURAYA"

  /**
    The group id configured for a branch, or None when the branch is unknown,
    its id is empty, or it still holds the placeholder.
   */
  function BranchGroupId(cfg: Config, branch: string): (r: Option<GroupId>)
    ensures r.Some? <==>
      branch in cfg.branchGroups && Truthy(cfg.branchGroups[branch])
      && cfg.branchGroups[branch] != GROUP_PLACEHOLDER
    ensures r.Some? ==> r.value == cfg.branchGroups[branch] && r.value != GROUP_PLACEHOLDER
  {
    if branch in cfg.branchGroups && Truthy(cfg.branchGroups[branch])
       && cfg.branchGroups[branch] != GROUP_PLACEHOLDER
    then Some(cfg.branchGroups[branch])
    else None
  }
}
