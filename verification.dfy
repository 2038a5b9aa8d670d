/**
  Account linking: the pending-verification store with its ten-minute
  expiry sweep, the account-link store, and the state machine shared by the
  link and change commands. A code is issued for a Discord id, the user puts
  it on their Roblox profile, and a later request completes the link when the
  ownership oracle finds the code there.
 */
module Verification {
  import opened Common
  import opened Environment
  import opened Permissions

  /** Ten minutes, in milliseconds. */
  const EXPIRY_MS: int := 10 * 60 * 1000

  /** One entry of the pending-verification store. */
  datatype PendingVerification = PendingVerification(code: string, robloxUsername: string, timestamp: int)

  /** Strictly older than ten minutes at time `now`. */
  predicate Expired(v: PendingVerification, now: int)
  {
    now - v.timestamp > EXPIRY_MS
  }

  /** The entries of `m` that are not expired at `now`, unchanged. */
  function Unexpired(m: map<string, PendingVerification>, now: int): (r: map<string, PendingVerification>)
    ensures forall k :: k in r <==> k in m && !Expired(m[k], now)
    ensures forall k :: k in r ==> r[k] == m[k]
  {
    map k | k in m && !Expired(m[k], now) :: m[k]
  }

  /** After a sweep nothing left is expired, and a second sweep changes nothing. */
  lemma UnexpiredIsClean(m: map<string, PendingVerification>, now: int)
    ensures forall k :: k in Unexpired(m, now) ==> now - Unexpired(m, now)[k].timestamp <= EXPIRY_MS
    ensures Unexpired(Unexpired(m, now), now) == Unexpired(m, now)
    ensures Unexpired(m, now).Keys <= m.Keys
  {
  }

  /** The sweep removes something exactly when some entry is expired. */
  lemma UnexpiredChangesIffExpired(m: map<string, PendingVerification>, now: int)
    ensures Unexpired(m, now) != m <==> exists k :: k in m && Expired(m[k], now)
  {
    if exists k :: k in m && Expired(m[k], now) {
      var k :| k in m && Expired(m[k], now);
      assert k !in Unexpired(m, now);
    } else {
      assert Unexpired(m, now) == m;
    }
  }

  /**
    cleanExpiredVerifications, on the loaded store: visit every key and
    delete the expired entries; report whether anything was deleted.
   */
  method SweepExpired(m: map<string, PendingVerification>, now: int)
    returns (kept: map<string, PendingVerification>, changed: bool)
    ensures kept == Unexpired(m, now)
    ensures changed <==> exists k :: k in m && Expired(m[k], now)
  {
    kept := m;
    changed := false;
    var keys := m.Keys;
    while keys != {}
      invariant keys <= m.Keys
      invariant forall k :: k in kept ==> k in m && kept[k] == m[k]
      invariant forall k :: k in keys ==> k in kept
      invariant forall k :: k in m && k !in keys ==> (k in kept <==> !Expired(m[k], now))
      invariant changed <==> exists k :: k in m && k !in keys && Expired(m[k], now)
      decreases keys
    {
      var k :| k in keys;
      if Expired(kept[k], now) {
        kept := kept - {k};
        changed := true;
      }
      keys := keys - {k};
    }
  }

  /** The pending-verification store: the entries and a count of rewrites of its file. */
  class PendingVerifications {
    var entries: map<string, PendingVerification>
    var saves: nat

    constructor(entries: map<string, PendingVerification>)
      ensures this.entries == entries && saves == 0
    {
      this.entries := entries;
      saves := 0;
    }

    /** cleanExpiredVerifications: drop the expired entries; rewrite the file only if one was dropped. */
    method CleanExpiredVerifications(now: int)
      modifies this
      ensures entries == Unexpired(old(entries), now)
      ensures saves == old(saves) + (if entries != old(entries) then 1 else 0)
    {
      var kept, changed := SweepExpired(entries, now);
      UnexpiredChangesIffExpired(entries, now);
      entries := kept;
      if changed {
        saves := saves + 1;
      }
    }
  }

  /** The account-link store: Discord id to linked Roblox username. */
  class AccountLinks {
    var links: map<string, string>

    constructor(links: map<string, string>)
      ensures this.links == links
    {
      this.links := links;
    }
  }

  // ---------------------------------------------------------------------
  // The link / change state machine
  // ---------------------------------------------------------------------

  /** handleRobloxLink requires no existing link; handleRobloxChange requires one. */
  datatype LinkCommand = Link | Change

  datatype LinkReply =
    | AlreadyLinked(existing: string)
    | NotYetLinked
    | UserNotFound
    | UserNotInGroup
    /** The ownership check passed and the new link was saved. */
    | Linked(username: string)
    /** The ownership check passed but the link file could not be written. */
    | LinkSaveFailed
    /** A fresh code was stored and shown to the user. */
    | CodeIssued(code: string)

  /** The answer, the link map and pending map afterwards, and whether the pending file was rewritten. */
  datatype LinkStep = LinkStep(reply: LinkReply, links: map<string, string>,
                               pending: map<string, PendingVerification>, pendingSaved: bool)

  /** The request was turned away before any store was touched. */
  predicate Refusal(r: LinkReply)
  {
    r.AlreadyLinked? || r.NotYetLinked? || r.UserNotFound? || r.UserNotInGroup?
  }

  /** The command's precondition on the existing link: link needs none, change needs one. */
  predicate LinkPrecondition(cmd: LinkCommand, links: map<string, string>, discordId: string)
  {
    if cmd == Link then LinkedUsername(links, discordId).None? else LinkedUsername(links, discordId).Some?
  }

  /** The requested name resolves to a member of the primary group. */
  predicate EligibleTarget(api: Api, cfg: Config, nick: string)
  {
    api.userIdByUsername(nick).Some? && api.rankInGroup(api.userIdByUsername(nick).value, cfg.groupId).Some?
  }

  /** A pending entry exists and the ownership oracle finds its code on the requested user's profile. */
  predicate CodeConfirmed(api: Api, pending: map<string, PendingVerification>, discordId: string, nick: string)
  {
    discordId in pending && api.userIdByUsername(nick).Some?
    && api.verifyOwnership(api.userIdByUsername(nick).value, pending[discordId].code)
  }

  /**
    One link or change request, after the sweep: the link precondition, the
    requested name resolves, that user is in the primary group, then either
    completion (a pending entry exists and the ownership oracle finds its
    code on the profile of the newly requested user) or a fresh code that
    overwrites the pending entry. On completion the pending entry is deleted
    and that deletion is saved before the link is saved, so it stands even
    when the link save fails.
   */
  function LinkTransition(cmd: LinkCommand, api: Api, cfg: Config,
                          links: map<string, string>, pending: map<string, PendingVerification>,
                          discordId: string, nick: string, code: string, now: int,
                          linkSaved: bool): (r: LinkStep)
    // the command's precondition on the existing link
    ensures r.reply.AlreadyLinked? <==> cmd == Link && LinkedUsername(links, discordId).Some?
    ensures r.reply.AlreadyLinked? ==> LinkedUsername(links, discordId) == Some(r.reply.existing)
    ensures r.reply == NotYetLinked <==> cmd == Change && LinkedUsername(links, discordId).None?
    // the lookups, each refusing exactly when it fails
    ensures r.reply == UserNotFound <==>
      LinkPrecondition(cmd, links, discordId) && api.userIdByUsername(nick).None?
    ensures r.reply == UserNotInGroup <==>
      LinkPrecondition(cmd, links, discordId) && api.userIdByUsername(nick).Some? && !EligibleTarget(api, cfg, nick)
    ensures Refusal(r.reply) <==> !(LinkPrecondition(cmd, links, discordId) && EligibleTarget(api, cfg, nick))
    // past them: a confirmed code completes (linked exactly when the link file was written), anything else re-issues
    ensures r.reply.Linked? <==>
      LinkPrecondition(cmd, links, discordId) && EligibleTarget(api, cfg, nick)
      && CodeConfirmed(api, pending, discordId, nick) && linkSaved
    ensures r.reply == LinkSaveFailed <==>
      LinkPrecondition(cmd, links, discordId) && EligibleTarget(api, cfg, nick)
      && CodeConfirmed(api, pending, discordId, nick) && !linkSaved
    ensures r.reply.CodeIssued? <==>
      LinkPrecondition(cmd, links, discordId) && EligibleTarget(api, cfg, nick)
      && !CodeConfirmed(api, pending, discordId, nick)
    // a refusal touches nothing
    ensures Refusal(r.reply) ==> r.links == links && r.pending == pending && !r.pendingSaved
    ensures !Refusal(r.reply) ==>
      api.userIdByUsername(nick).Some? && api.rankInGroup(api.userIdByUsername(nick).value, cfg.groupId).Some?
    // completion: the code was found on the requested user's profile
    ensures r.reply.Linked? || r.reply == LinkSaveFailed <==>
      !Refusal(r.reply) && discordId in pending
      && api.verifyOwnership(api.userIdByUsername(nick).value, pending[discordId].code)
    ensures r.reply.Linked? ==> r.reply.username == nick && linkSaved
    ensures r.reply.Linked? ==> r.links == links[discordId := nick]
    ensures r.reply.Linked? || r.reply == LinkSaveFailed ==> r.pending == pending - {discordId} && r.pendingSaved
    ensures r.reply == LinkSaveFailed ==> !linkSaved && r.links == links
    // otherwise a fresh code, and the links stay as they were
    ensures r.reply.CodeIssued? ==>
      r.reply.code == code && r.links == links && r.pendingSaved
      && r.pending == pending[discordId := PendingVerification(code, nick, now)]
    // only a completed link changes the link map
    ensures r.links != links ==> r.reply.Linked?
  {
    var existing := LinkedUsername(links, discordId);
    if cmd == Link && existing.Some? then LinkStep(AlreadyLinked(existing.value), links, pending, false)
    else if cmd == Change && existing.None? then LinkStep(NotYetLinked, links, pending, false)
    else
      match api.userIdByUsername(nick)
      case None => LinkStep(UserNotFound, links, pending, false)
      case Some(userId) =>
        if api.rankInGroup(userId, cfg.groupId).None? then LinkStep(UserNotInGroup, links, pending, false)
        else if discordId in pending && api.verifyOwnership(userId, pending[discordId].code) then
          var rest := pending - {discordId};
          if linkSaved then LinkStep(Linked(nick), links[discordId := nick], rest, true)
          else LinkStep(LinkSaveFailed, links, rest, true)
        else
          LinkStep(CodeIssued(code), links, pending[discordId := PendingVerification(code, nick, now)], true)
  }

  /**
    handleRobloxLink and handleRobloxChange on the two stores: sweep the
    pending store, then take the transition on what is left. `code` stands
    for the freshly generated code and `linkSaved` for the outcome of writing
    the link file.
   */
  method HandleLinkRequest(cmd: LinkCommand, api: Api, cfg: Config,
                           store: AccountLinks, pend: PendingVerifications,
                           discordId: string, nick: string, code: string, now: int, linkSaved: bool)
    returns (reply: LinkReply)
    modifies store, pend
    ensures var step := LinkTransition(cmd, api, cfg, old(store.links), Unexpired(old(pend.entries), now),
                                       discordId, nick, code, now, linkSaved);
      && reply == step.reply
      && store.links == step.links
      && pend.entries == step.pending
      && pend.saves == old(pend.saves)
           + (if Unexpired(old(pend.entries), now) != old(pend.entries) then 1 else 0)
           + (if step.pendingSaved then 1 else 0)
  {
    pend.CleanExpiredVerifications(now);
    var step := LinkTransition(cmd, api, cfg, store.links, pend.entries, discordId, nick, code, now, linkSaved);
    store.links := step.links;
    pend.entries := step.pending;
    if step.pendingSaved {
      pend.saves := pend.saves + 1;
    }
    reply := step.reply;
  }

  /**
    A code older than ten minutes is never accepted: after the sweep its
    entry is gone, so the request issues a fresh code instead of completing.
   */
  lemma ExpiredCodeNeverAccepted(cmd: LinkCommand, api: Api, cfg: Config,
                                 links: map<string, string>, pending: map<string, PendingVerification>,
                                 discordId: string, nick: string, code: string, now: int, linkSaved: bool)
    requires discordId in pending && Expired(pending[discordId], now)
    ensures var r := LinkTransition(cmd, api, cfg, links, Unexpired(pending, now), discordId, nick, code, now, linkSaved);
      !r.reply.Linked? && r.reply != LinkSaveFailed && r.links == links
  {
    assert discordId !in Unexpired(pending, now);
  }

  /**
    The ownership check looks only at the newly requested user: a code
    issued while linking `first` completes a link to `second` when the code
    is on `second`'s profile.
   */
  lemma CodeIsNotTiedToRequestedName(api: Api, cfg: Config, links: map<string, string>,
                                     pending: map<string, PendingVerification>,
                                     discordId: string, first: string, second: string, code: string, now: int)
    requires LinkedUsername(links, discordId).None?
    requires discordId in pending && pending[discordId].robloxUsername == first && first != second
    requires api.userIdByUsername(second).Some?
    requires api.rankInGroup(api.userIdByUsername(second).value, cfg.groupId).Some?
    requires api.verifyOwnership(api.userIdByUsername(second).value, pending[discordId].code)
    ensures LinkTransition(Link, api, cfg, links, pending, discordId, second, code, now, true).reply == Linked(second)
    ensures LinkTransition(Link, api, cfg, links, pending, discordId, second, code, now, true).links[discordId] != first
  {
  }

  /**
    A request that passes the checks but whose code is not (yet) on the
    profile replaces the pending entry: issuing twice keeps only the newest
    code.
   */
  lemma ReissueOverwrites(cmd: LinkCommand, api: Api, cfg: Config,
                          links: map<string, string>, pending: map<string, PendingVerification>,
                          discordId: string, nick: string, code1: string, code2: string, t1: int, t2: int)
    requires LinkTransition(cmd, api, cfg, links, pending, discordId, nick, code1, t1, true).reply.CodeIssued?
    requires !api.verifyOwnership(api.userIdByUsername(nick).value, code1)
    ensures var s1 := LinkTransition(cmd, api, cfg, links, pending, discordId, nick, code1, t1, true);
      var s2 := LinkTransition(cmd, api, cfg, s1.links, s1.pending, discordId, nick, code2, t2, true);
      s2.reply == CodeIssued(code2) && s2.pending[discordId] == PendingVerification(code2, nick, t2)
      && s2.pending.Keys == pending.Keys + {discordId}
  {
  }
}
