/**
  The support-ticket table: at most one active ticket per owner, looked up
  by its channel id, claimed at most once by a support member, and removed
  when closed. Also the channel name a ticket gets and the identifier of the
  rating buttons sent when a ticket is closed.
 */
module Tickets {
  import opened Common

  /** One active ticket, keyed by its owner's Discord id in the table. */
  datatype Ticket = Ticket(channelId: string, category: string, createdAt: int, claimedBy: Option<string>)

  /** No two active tickets share a channel. */
  predicate UniqueChannels(tickets: map<string, Ticket>)
  {
    forall o1, o2 :: o1 in tickets && o2 in tickets && o1 != o2 ==> tickets[o1].channelId != tickets[o2].channelId
  }

  /** Some active ticket lives in this channel. */
  predicate IsTicketChannel(tickets: map<string, Ticket>, channelId: string)
  {
    exists o :: o in tickets && tickets[o].channelId == channelId
  }

  /** `supportRoleIds.some(id => member has id)`. */
  predicate HasSupportRole(supportRoleIds: seq<string>, memberRoles: set<string>)
    ensures HasSupportRole(supportRoleIds, memberRoles) <==>
      exists i :: 0 <= i < |supportRoleIds| && supportRoleIds[i] in memberRoles
    ensures supportRoleIds == [] ==> !HasSupportRole(supportRoleIds, memberRoles)
  {
    exists id :: id in supportRoleIds && id in memberRoles
  }

  /**
    The owner of the ticket in a channel: the loop over the table's entries
    stops at the first entry with that channel id.
   */
  method FindTicketByChannel(tickets: map<string, Ticket>, channelId: string) returns (owner: Option<string>)
    ensures owner.Some? ==> owner.value in tickets && tickets[owner.value].channelId == channelId
    ensures owner.None? <==> !IsTicketChannel(tickets, channelId)
    ensures owner.Some? && UniqueChannels(tickets) ==>
      forall o :: o in tickets && tickets[o].channelId == channelId ==> o == owner.value
  {
    var keys := tickets.Keys;
    while keys != {}
      invariant keys <= tickets.Keys
      invariant forall o :: o in tickets && o !in keys ==> tickets[o].channelId != channelId
      decreases keys
    {
      var o :| o in keys;
      if tickets[o].channelId == channelId {
        return Some(o);
      }
      keys := keys - {o};
    }
    return None;
  }

  datatype TicketReply =
    | AlreadyOpen
    /** Creating the channel or sending its welcome message failed. */
    | OpenFailed
    | Opened(channelId: string)
    | NotATicket
    | NoPermission
    | AlreadyClaimed(holder: string)
    | Claimed(owner: string)
    | Closed(owner: string)

  /** The answer and the table afterwards. */
  datatype TicketStep = TicketStep(reply: TicketReply, tickets: map<string, Ticket>)

  /**
    handleTicketCategorySelect: refused while the owner has an active
    ticket; otherwise the entry is written only once the channel exists and
    its welcome message went out, unclaimed.
   */
  function OpenStep(tickets: map<string, Ticket>, owner: string, category: string,
                    created: Option<string>, welcomeSent: bool, now: int): (r: TicketStep)
    ensures owner in tickets ==> r == TicketStep(AlreadyOpen, tickets)
    ensures r.reply.Opened? <==> owner !in tickets && created.Some? && welcomeSent
    ensures r.reply.Opened? ==>
      r.reply.channelId == created.value
      && r.tickets == tickets[owner := Ticket(created.value, category, now, None)]
    ensures !r.reply.Opened? ==> r.tickets == tickets
  {
    if owner in tickets then TicketStep(AlreadyOpen, tickets)
    else if created.None? || !welcomeSent then TicketStep(OpenFailed, tickets)
    else TicketStep(Opened(created.value), tickets[owner := Ticket(created.value, category, now, None)])
  }

  /**
    handleTicketClaim, after the lookup: a support member claims an
    unclaimed ticket; everyone else, and every claim of a claimed ticket,
    leaves the table as it was.
   */
  function ClaimStep(tickets: map<string, Ticket>, found: Option<string>, claimer: string, isSupport: bool): (r: TicketStep)
    requires found.Some? ==> found.value in tickets
    ensures found.None? ==> r == TicketStep(NotATicket, tickets)
    ensures found.Some? && !isSupport ==> r == TicketStep(NoPermission, tickets)
    ensures r.reply.Claimed? <==> found.Some? && isSupport && !Present(tickets[found.value].claimedBy)
    ensures r.reply.Claimed? ==>
      r.reply.owner == found.value
      && r.tickets == tickets[found.value := tickets[found.value].(claimedBy := Some(claimer))]
    ensures r.reply.AlreadyClaimed? ==> Some(r.reply.holder) == tickets[found.value].claimedBy
    ensures !r.reply.Claimed? ==> r.tickets == tickets
  {
    match found
    case None => TicketStep(NotATicket, tickets)
    case Some(owner) =>
      if !isSupport then TicketStep(NoPermission, tickets)
      else if Present(tickets[owner].claimedBy) then TicketStep(AlreadyClaimed(tickets[owner].claimedBy.value), tickets)
      else TicketStep(Claimed(owner), tickets[owner := tickets[owner].(claimedBy := Some(claimer))])
  }

  /**
    handleTicketClose, after the lookup: the owner, a member with the
    manage-channels permission or a support member closes the ticket, which
    removes exactly the owner's entry.
   */
  function CloseStep(tickets: map<string, Ticket>, found: Option<string>, closer: string,
                     manageChannels: bool, isSupport: bool): (r: TicketStep)
    requires found.Some? ==> found.value in tickets
    ensures found.None? ==> r == TicketStep(NotATicket, tickets)
    ensures r.reply.Closed? <==> found.Some? && (closer == found.value || manageChannels || isSupport)
    ensures r.reply.Closed? ==> r.reply.owner == found.value && r.tickets == tickets - {found.value}
    ensures !r.reply.Closed? ==> r.tickets == tickets
  {
    match found
    case None => TicketStep(NotATicket, tickets)
    case Some(owner) =>
      if closer != owner && !manageChannels && !isSupport then TicketStep(NoPermission, tickets)
      else TicketStep(Closed(owner), tickets - {owner})
  }

  /** A claimed ticket cannot be claimed again, by anyone. */
  lemma {:induction false} ClaimedOnlyOnce(tickets: map<string, Ticket>, owner: string, first: string, second: string)
    requires owner in tickets && first != ""
    requires ClaimStep(tickets, Some(owner), first, true).reply.Claimed?
    ensures var after := ClaimStep(tickets, Some(owner), first, true).tickets;
      owner in after && ClaimStep(after, Some(owner), second, true) == TicketStep(AlreadyClaimed(first), after)
  {
    var after := ClaimStep(tickets, Some(owner), first, true).tickets;
    assert after[owner].claimedBy == Some(first);
  }

  /** Closing leaves every other owner's ticket exactly as it was, and frees the owner to open again. */
  lemma CloseKeepsOthers(tickets: map<string, Ticket>, owner: string, closer: string, manageChannels: bool,
                         isSupport: bool, category: string, channel: string, now: int)
    requires owner in tickets
    requires CloseStep(tickets, Some(owner), closer, manageChannels, isSupport).reply.Closed?
    ensures var after := CloseStep(tickets, Some(owner), closer, manageChannels, isSupport).tickets;
      && (forall o :: o in tickets && o != owner ==> o in after && after[o] == tickets[o])
      && owner !in after
      && OpenStep(after, owner, category, Some(channel), true, now).reply.Opened?
  {
  }

  /** Every step keeps channels unique, provided a newly created channel is new. */
  lemma {:induction false} StepsKeepChannelsUnique(tickets: map<string, Ticket>, owner: string, category: string,
                                                   created: Option<string>, welcomeSent: bool, now: int,
                                                   found: Option<string>, who: string, manageChannels: bool, isSupport: bool)
    requires UniqueChannels(tickets)
    requires found.Some? ==> found.value in tickets
    requires created.Some? ==> !IsTicketChannel(tickets, created.value)
    ensures UniqueChannels(OpenStep(tickets, owner, category, created, welcomeSent, now).tickets)
    ensures UniqueChannels(ClaimStep(tickets, found, who, isSupport).tickets)
    ensures UniqueChannels(CloseStep(tickets, found, who, manageChannels, isSupport).tickets)
  {
    var grown := OpenStep(tickets, owner, category, created, welcomeSent, now).tickets;
    if grown != tickets {
      forall o1, o2 | o1 in grown && o2 in grown && o1 != o2
        ensures grown[o1].channelId != grown[o2].channelId
      {
        if o1 == owner {
          assert o2 in tickets;
        } else if o2 == owner {
          assert o1 in tickets;
        }
      }
    }
  }

  /** The active-ticket store. */
  class ActiveTickets {
    var tickets: map<string, Ticket>

    constructor(tickets: map<string, Ticket>)
      ensures this.tickets == tickets
    {
      this.tickets := tickets;
    }

    /**
      Opening a ticket for `owner`. `created` stands for the id of the
      channel the platform created (None when creation failed) and
      `welcomeSent` for the outcome of the welcome message.
     */
    method Open(owner: string, category: string, created: Option<string>, welcomeSent: bool, now: int)
      returns (reply: TicketReply)
      modifies this
      ensures var step := OpenStep(old(tickets), owner, category, created, welcomeSent, now);
        reply == step.reply && tickets == step.tickets
    {
      var step := OpenStep(tickets, owner, category, created, welcomeSent, now);
      tickets := step.tickets;
      reply := step.reply;
    }

    /** Claiming the ticket of `channelId`; `owner` is the entry the lookup found. */
    method Claim(channelId: string, claimer: string, memberRoles: set<string>, supportRoleIds: seq<string>)
      returns (reply: TicketReply, owner: Option<string>)
      modifies this
      ensures owner.None? <==> !IsTicketChannel(old(tickets), channelId)
      ensures owner.Some? ==> owner.value in old(tickets) && old(tickets)[owner.value].channelId == channelId
      ensures var step := ClaimStep(old(tickets), owner, claimer, HasSupportRole(supportRoleIds, memberRoles));
        reply == step.reply && tickets == step.tickets
    {
      owner := FindTicketByChannel(tickets, channelId);
      var step := ClaimStep(tickets, owner, claimer, HasSupportRole(supportRoleIds, memberRoles));
      tickets := step.tickets;
      reply := step.reply;
    }

    /** Closing the ticket of `channelId`; `owner` is the entry the lookup found. */
    method Close(channelId: string, closer: string, manageChannels: bool,
                 memberRoles: set<string>, supportRoleIds: seq<string>)
      returns (reply: TicketReply, owner: Option<string>)
      modifies this
      ensures owner.None? <==> !IsTicketChannel(old(tickets), channelId)
      ensures owner.Some? ==> owner.value in old(tickets) && old(tickets)[owner.value].channelId == channelId
      ensures var step := CloseStep(old(tickets), owner, closer, manageChannels, HasSupportRole(supportRoleIds, memberRoles));
        reply == step.reply && tickets == step.tickets
    {
      owner := FindTicketByChannel(tickets, channelId);
      var step := CloseStep(tickets, owner, closer, manageChannels, HasSupportRole(supportRoleIds, memberRoles));
      tickets := step.tickets;
      reply := step.reply;
    }
  }

  // ---------------------------------------------------------------------
  // Channel names
  // ---------------------------------------------------------------------

  /** The characters a ticket channel name keeps: `[a-z0-9_]`. */
  predicate ChannelNameChar(c: char)
  {
    ('a' <= c <= 'z') || ('0' <= c <= '9') || c == '_'
  }

  /**
    The username lower-cased, with every character outside `[a-z0-9_]`
    replaced by an underscore.
   */
  function SanitizeUsername(name: string): (r: string)
    ensures |r| == |name|
    ensures forall i :: 0 <= i < |r| ==> ChannelNameChar(r[i])
    ensures forall i :: 0 <= i < |r| && ChannelNameChar(ToLower(name)[i]) ==> r[i] == ToLower(name)[i]
    ensures forall i :: 0 <= i < |r| && !ChannelNameChar(ToLower(name)[i]) ==> r[i] == '_'
  {
    var lower := ToLower(name);
    seq(|lower|, i requires 0 <= i < |lower| => if ChannelNameChar(lower[i]) then lower[i] else '_')
  }

  /** Sanitising a sanitised name changes nothing. */
  lemma SanitizeIdempotent(name: string)
    ensures SanitizeUsername(SanitizeUsername(name)) == SanitizeUsername(name)
  {
    var s := SanitizeUsername(name);
    forall i | 0 <= i < |s| ensures ToLower(s)[i] == s[i] {
      assert !IsUpper(s[i]);
    }
  }

  /** The name of the ticket channel: `ticket-` and the sanitised username. */
  function TicketChannelName(username: string): (r: string)
    ensures |r| == 7 + |username| && r[..7] == "ticket-"
    ensures r[7..] == SanitizeUsername(username)
    ensures forall i :: 7 <= i < |r| ==> ChannelNameChar(r[i])
  {
    "ticket-" + SanitizeUsername(username)
  }

  // ---------------------------------------------------------------------
  // Rating buttons: `rate_ticket_{n}_{owner}`
  // ---------------------------------------------------------------------

  /** `s.split(c)`: the pieces between occurrences of `c`, empty ones included. */
  function Split(s: string, c: char): (parts: seq<string>)
    ensures |parts| >= 1
    ensures forall i :: 0 <= i < |parts| ==> c !in parts[i]
    decreases |s|
  {
    if |s| == 0 then [""]
    else
      var rest := Split(s[1..], c);
      if s[0] == c then [""] + rest
      else [[s[0]] + rest[0]] + rest[1..]
  }

  /** `parts.join(c)`. */
  function Join(parts: seq<string>, c: char): string
    requires |parts| >= 1
    decreases |parts|
  {
    if |parts| == 1 then parts[0] else parts[0] + [c] + Join(parts[1..], c)
  }

  /** Splitting undoes joining pieces that do not contain the separator. */
  lemma {:induction false} SplitJoin(parts: seq<string>, c: char)
    requires |parts| >= 1
    requires forall i :: 0 <= i < |parts| ==> c !in parts[i]
    ensures Split(Join(parts, c), c) == parts
    decreases |parts|
  {
    if |parts| == 1 {
      SplitNoSeparator(parts[0], c);
    } else {
      SplitJoin(parts[1..], c);
      SplitAfterPiece(parts[0], Join(parts[1..], c), c);
    }
  }

  /** A string without the separator splits into itself. */
  lemma {:induction false} SplitNoSeparator(s: string, c: char)
    requires c !in s
    ensures Split(s, c) == [s]
    decreases |s|
  {
    if |s| > 0 {
      assert c !in s[1..];
      SplitNoSeparator(s[1..], c);
      assert [s[0]] + s[1..] == s;
    }
  }

  /** A piece without the separator, then the separator, then the rest. */
  lemma {:induction false} SplitAfterPiece(piece: string, rest: string, c: char)
    requires c !in piece
    ensures Split(piece + [c] + rest, c) == [piece] + Split(rest, c)
    decreases |piece|
  {
    var s := piece + [c] + rest;
    if |piece| == 0 {
      assert s == [c] + rest;
      assert s[1..] == rest;
    } else {
      assert s[1..] == piece[1..] + [c] + rest;
      assert c !in piece[1..];
      SplitAfterPiece(piece[1..], rest, c);
      assert [piece[0]] + piece[1..] == piece;
    }
  }

  /** `parseInt` on a string: an optional sign, then the longest run of digits; None stands for NaN. */
  function ParseInt(s: string): (r: Option<int>)
    ensures r.Some? ==> |s| > 0
    ensures |s| > 0 && IsDigit(s[0]) ==> r.Some? && r.value >= 0
    ensures |s| > 0 && !IsDigit(s[0]) && s[0] != '-' && s[0] != '+' ==> r.None?
    ensures r.Some? && r.value < 0 ==> s[0] == '-'
  {
    var negative := |s| > 0 && s[0] == '-';
    var body := if |s| > 0 && (s[0] == '-' || s[0] == '+') then s[1..] else s;
    var digits := DigitPrefix(body);
    if |digits| == 0 then None
    else
      var magnitude: int := DigitsValue(digits);
      Some(if negative then -magnitude else magnitude)
  }

  /** The longest prefix made of decimal digits. */
  function DigitPrefix(s: string): (d: string)
    ensures |d| <= |s| && d == s[..|d|]
    ensures forall i :: 0 <= i < |d| ==> IsDigit(d[i])
    ensures |d| < |s| ==> !IsDigit(s[|d|])
    decreases |s|
  {
    if |s| == 0 || !IsDigit(s[0]) then [] else [s[0]] + DigitPrefix(s[1..])
  }

  /** A string of digits is its own digit prefix. */
  lemma {:induction false} DigitPrefixOfDigits(s: string)
    requires forall i :: 0 <= i < |s| ==> IsDigit(s[i])
    ensures DigitPrefix(s) == s
    decreases |s|
  {
    if |s| > 0 {
      DigitPrefixOfDigits(s[1..]);
      assert [s[0]] + s[1..] == s;
    }
  }

  /** parseInt reads back what the decimal printing of an integer produced. */
  lemma ParseIntOfIntToString(n: int)
    ensures ParseInt(IntToString(n)) == Some(n)
  {
    var m: nat := if n >= 0 then n else -n;
    var digits := NatToString(m);
    DigitPrefixOfDigits(digits);
    NatToStringValue(m);
    if n < 0 {
      assert IntToString(n)[1..] == digits;
    } else {
      assert IsDigit(digits[0]);
    }
  }

  const RATING_PREFIX: string := "rate_ticket_"

  /** The identifier of a rating button: `rate_ticket_{n}_{owner}`. */
  function RatingButtonId(rating: int, owner: string): (id: string)
    ensures |id| > |RATING_PREFIX| + |owner| && id[..|RATING_PREFIX|] == RATING_PREFIX
    ensures id[|id| - |owner|..] == owner
  {
    RATING_PREFIX + IntToString(rating) + "_" + owner
  }

  /** What the button handler reads from an identifier: the rating (None for NaN) and the owner (None when absent). */
  datatype RatingPress = RatingPress(rating: Option<int>, owner: Option<string>)

  /**
    The rating branch of the button handler: identifiers starting with
    `rate_ticket_` are split on `_`; the third piece is parsed as the
    rating and the fourth, if any, is the ticket owner.
   */
  function ParseRatingButton(customId: string): (r: Option<RatingPress>)
    ensures r.Some? <==> |customId| >= |RATING_PREFIX| && customId[..|RATING_PREFIX|] == RATING_PREFIX
  {
    if |customId| >= |RATING_PREFIX| && customId[..|RATING_PREFIX|] == RATING_PREFIX then
      var parts := Split(customId, '_');
      SplitRatingPrefix(customId);
      Some(RatingPress(ParseInt(parts[2]), if |parts| > 3 then Some(parts[3]) else None))
    else None
  }

  /** An identifier with the rating prefix splits into `rate`, `ticket` and the pieces of the rest. */
  lemma SplitRatingPrefix(customId: string)
    requires |customId| >= |RATING_PREFIX| && customId[..|RATING_PREFIX|] == RATING_PREFIX
    ensures Split(customId, '_') == ["rate", "ticket"] + Split(customId[|RATING_PREFIX|..], '_')
    ensures |Split(customId, '_')| >= 3
  {
    var rest := customId[|RATING_PREFIX|..];
    assert customId == "rate" + "_" + ("ticket" + "_" + rest);
    SplitAfterPiece("rate", "ticket" + "_" + rest, '_');
    SplitAfterPiece("ticket", rest, '_');
  }

  /** A button built for (n, owner) reads back as (n, owner) when the owner id has no underscore. */
  lemma RatingButtonRoundTrip(rating: int, owner: string)
    requires '_' !in owner
    ensures ParseRatingButton(RatingButtonId(rating, owner)) == Some(RatingPress(Some(rating), Some(owner)))
  {
    var id := RatingButtonId(rating, owner);
    var n := IntToString(rating);
    assert '_' !in n by {
      forall i | 0 <= i < |n| ensures n[i] != '_' {
        if rating < 0 && i > 0 {
          assert n[i] == NatToString(-rating)[i - 1];
        }
      }
    }
    assert id == RATING_PREFIX + (n + "_" + owner);
    assert id[..|RATING_PREFIX|] == RATING_PREFIX;
    assert id[|RATING_PREFIX|..] == n + "_" + owner;
    SplitRatingPrefix(id);
    SplitJoin([n, owner], '_');
    assert Join([n, owner], '_') == n + "_" + owner;
    ParseIntOfIntToString(rating);
  }

  /** handleTicketRating accepts a rating only from the ticket's owner. */
  predicate RatingAccepted(userId: string, press: RatingPress)
  {
    press.owner == Some(userId)
  }

  /** A rating from the owner of the button's ticket is accepted, from anyone else refused. */
  lemma RatingOnlyByOwner(rating: int, owner: string, userId: string)
    requires '_' !in owner
    ensures RatingAccepted(userId, ParseRatingButton(RatingButtonId(rating, owner)).value) <==> userId == owner
  {
    RatingButtonRoundTrip(rating, owner);
  }
}
