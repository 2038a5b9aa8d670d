/**
  The audit notifier: which webhook (if any) receives a log entry, and the
  title, colour and fields of the entry for a rank change and for a branch
  join-request decision. The HTTP post itself, the timestamp and the footer
  are not modelled; a `Post` value stands for "this entry is sent there".
 */
module Audit {
  import opened Common
  import opened Environment

  /** A configured URL that is neither missing, empty nor the placeholder. */
  predicate UsableUrl(u: Option<string>)
  {
    Present(u) && u.value != WEBHOOK_PLACEHOLDER
  }

  /** Where sendRankChangeWebhook posts: the main webhook, when usable. */
  function RankWebhookUrl(cfg: Config): (r: Option<string>)
    ensures r.Some? <==> UsableUrl(cfg.webhookUrl)
    ensures r.Some? ==> r == cfg.webhookUrl
  {
    if UsableUrl(cfg.webhookUrl) then cfg.webhookUrl else None
  }

  /**
    Where sendBranchRequestWebhook posts: the branch webhook when usable,
    otherwise the main one; nothing when the chosen one is unusable.
   */
  function BranchRequestWebhookUrl(cfg: Config): (r: Option<string>)
    ensures UsableUrl(cfg.branchWebhookUrl) ==> r == cfg.branchWebhookUrl
    ensures !UsableUrl(cfg.branchWebhookUrl) ==> r == RankWebhookUrl(cfg)
    ensures r.Some? ==> UsableUrl(r)
  {
    var url := if Present(cfg.branchWebhookUrl) && cfg.branchWebhookUrl.value != WEBHOOK_PLACEHOLDER
               then cfg.branchWebhookUrl else cfg.webhookUrl;
    if !Present(url) || url.value == WEBHOOK_PLACEHOLDER then None else url
  }

  datatype Field = Field(name: string, value: string, inline: bool)
  datatype Embed = Embed(title: string, color: int, fields: seq<Field>)
  datatype Post = Post(url: string, embed: Embed)

  const TARGET_FIELD: string := "Hedef Kullanıcı"
  const MANAGER_FIELD: string := "İşlemi Yapan"
  const SPACER: string := "\U{200B}"
  const OLD_RANK_FIELD: string := "Eski Rütbe"
  const NEW_RANK_FIELD: string := "Yeni Rütbe"
  const BRANCH_FIELD: string := "Branş"
  const DECISION_FIELD: string := "Karar"
  const REASON_FIELD: string := "Sebep"

  const GREEN: int := 0x57F287
  const RED: int := 0xED4245
  const BLURPLE: int := 0x5865F2

  /** The field names differ pairwise (they differ in length or first letter). */
  lemma FieldNamesDistinct()
    ensures OLD_RANK_FIELD !in {TARGET_FIELD, MANAGER_FIELD, SPACER, NEW_RANK_FIELD, BRANCH_FIELD, REASON_FIELD}
    ensures BRANCH_FIELD !in {TARGET_FIELD, MANAGER_FIELD, SPACER, NEW_RANK_FIELD, REASON_FIELD, DECISION_FIELD}
    ensures REASON_FIELD !in {TARGET_FIELD, MANAGER_FIELD, SPACER, NEW_RANK_FIELD, DECISION_FIELD}
  {
    assert TARGET_FIELD[0] == 'H' && MANAGER_FIELD[0] == 'İ' && |SPACER| == 1;
    assert OLD_RANK_FIELD[0] == 'E' && NEW_RANK_FIELD[0] == 'Y' && BRANCH_FIELD[0] == 'B';
    assert DECISION_FIELD[0] == 'K' && REASON_FIELD[0] == 'S';
  }

  /** Some field carries this name. */
  predicate HasField(fields: seq<Field>, name: string)
  {
    exists f :: f in fields && f.name == name
  }

  /** Some field carries this name and this value. */
  predicate HasFieldValue(fields: seq<Field>, name: string, value: string)
  {
    exists f :: f in fields && f.name == name && f.value == value
  }

  /** The field `name: value`, or no field when the value is absent or empty. */
  function OptionalField(name: string, value: Option<string>, inline: bool): (fs: seq<Field>)
    ensures forall n :: HasField(fs, n) <==> n == name && Present(value)
    ensures Present(value) ==> HasFieldValue(fs, name, value.value)
  {
    if Present(value) then
      assert Field(name, value.value, inline) in [Field(name, value.value, inline)];
      [Field(name, value.value, inline)]
    else []
  }

  /** A name is found in `a + b` exactly when it is found in `a` or in `b`. */
  lemma HasFieldAppend(a: seq<Field>, b: seq<Field>)
    ensures forall n :: HasField(a + b, n) <==> HasField(a, n) || HasField(b, n)
    ensures forall n, v :: HasFieldValue(a, n, v) || HasFieldValue(b, n, v) ==> HasFieldValue(a + b, n, v)
  {
  }

  // ---------------------------------------------------------------------
  // Rank changes
  // ---------------------------------------------------------------------

  datatype RankChangeKind = Change | Promotion | Demotion | BranchChange

  /** What a rank handler hands to sendRankChangeWebhook. */
  datatype RankChangeLog = RankChangeLog(
    kind: RankChangeKind,
    targetUser: string,
    manager: string,
    managerRank: string,
    oldRank: Option<string>,
    newRank: string,
    branch: Option<string>,
    reason: Option<string>)

  function RankTitle(kind: RankChangeKind): string
  {
    match kind
    case Change => "Rütbe Değişikliği"
    case Promotion => "Terfi"
    case Demotion => "Tenzil"
    case BranchChange => "Branş Rütbe Değişikliği"
  }

  function RankColor(kind: RankChangeKind): int
  {
    match kind
    case Promotion => GREEN
    case Demotion => RED
    case _ => BLURPLE
  }

  /**
    The rank-change log entry. The old rank, branch and reason fields appear
    exactly when their values are present; the new rank always does.
   */
  function RankEmbed(d: RankChangeLog): (e: Embed)
    ensures e.title == RankTitle(d.kind) && e.color == RankColor(d.kind)
    ensures HasFieldValue(e.fields, TARGET_FIELD, d.targetUser)
    ensures HasFieldValue(e.fields, MANAGER_FIELD, d.manager + " (" + d.managerRank + ")")
    ensures HasFieldValue(e.fields, NEW_RANK_FIELD, d.newRank)
    ensures HasField(e.fields, OLD_RANK_FIELD) <==> Present(d.oldRank)
    ensures Present(d.oldRank) ==> HasFieldValue(e.fields, OLD_RANK_FIELD, d.oldRank.value)
    ensures HasField(e.fields, BRANCH_FIELD) <==> Present(d.branch)
    ensures Present(d.branch) ==> HasFieldValue(e.fields, BRANCH_FIELD, d.branch.value)
    ensures HasField(e.fields, REASON_FIELD) <==> Present(d.reason)
    ensures Present(d.reason) ==> HasFieldValue(e.fields, REASON_FIELD, d.reason.value)
  {
    var head := [Field(TARGET_FIELD, d.targetUser, true),
                 Field(MANAGER_FIELD, d.manager + " (" + d.managerRank + ")", true),
                 Field(SPACER, SPACER, true)];
    var old_ := OptionalField(OLD_RANK_FIELD, d.oldRank, true);
    var new_ := [Field(NEW_RANK_FIELD, d.newRank, true)];
    var branch := OptionalField(BRANCH_FIELD, d.branch, true);
    var reason := OptionalField(REASON_FIELD, d.reason, false);
    RankFieldsFound(head, old_, new_, branch, reason, d);
    Embed(RankTitle(d.kind), RankColor(d.kind), head + old_ + new_ + branch + reason)
  }

  lemma RankFieldsFound(head: seq<Field>, old_: seq<Field>, new_: seq<Field>,
                        branch: seq<Field>, reason: seq<Field>, d: RankChangeLog)
    requires head == [Field(TARGET_FIELD, d.targetUser, true),
                      Field(MANAGER_FIELD, d.manager + " (" + d.managerRank + ")", true),
                      Field(SPACER, SPACER, true)]
    requires old_ == OptionalField(OLD_RANK_FIELD, d.oldRank, true)
    requires new_ == [Field(NEW_RANK_FIELD, d.newRank, true)]
    requires branch == OptionalField(BRANCH_FIELD, d.branch, true)
    requires reason == OptionalField(REASON_FIELD, d.reason, false)
    ensures var fs := head + old_ + new_ + branch + reason;
      && HasFieldValue(fs, TARGET_FIELD, d.targetUser)
      && HasFieldValue(fs, MANAGER_FIELD, d.manager + " (" + d.managerRank + ")")
      && HasFieldValue(fs, NEW_RANK_FIELD, d.newRank)
      && (HasField(fs, OLD_RANK_FIELD) <==> Present(d.oldRank))
      && (Present(d.oldRank) ==> HasFieldValue(fs, OLD_RANK_FIELD, d.oldRank.value))
      && (HasField(fs, BRANCH_FIELD) <==> Present(d.branch))
      && (Present(d.branch) ==> HasFieldValue(fs, BRANCH_FIELD, d.branch.value))
      && (HasField(fs, REASON_FIELD) <==> Present(d.reason))
      && (Present(d.reason) ==> HasFieldValue(fs, REASON_FIELD, d.reason.value))
  {
    var fs := head + old_ + new_ + branch + reason;
    assert head[0] in fs && head[1] in fs && new_[0] in fs;
    FieldNamesDistinct();
    forall f | f in head + new_
      ensures f.name in {TARGET_FIELD, MANAGER_FIELD, SPACER, NEW_RANK_FIELD}
    {
      var k :| 0 <= k < |head + new_| && (head + new_)[k] == f;
    }
    FoundIn(head, old_, new_, branch, reason, OLD_RANK_FIELD);
    FoundIn(head, old_, new_, branch, reason, BRANCH_FIELD);
    FoundIn(head, old_, new_, branch, reason, REASON_FIELD);
  }

  /** A name is found in a concatenation of five parts exactly when it is found in one of them. */
  lemma FoundIn(p1: seq<Field>, p2: seq<Field>, p3: seq<Field>, p4: seq<Field>, p5: seq<Field>, n: string)
    ensures HasField(p1 + p2 + p3 + p4 + p5, n) <==>
      HasField(p1, n) || HasField(p2, n) || HasField(p3, n) || HasField(p4, n) || HasField(p5, n)
    ensures forall v ::
      (HasFieldValue(p1, n, v) || HasFieldValue(p2, n, v) || HasFieldValue(p4, n, v) || HasFieldValue(p5, n, v))
      ==> HasFieldValue(p1 + p2 + p3 + p4 + p5, n, v)
  {
  }

  /**
    sendRankChangeWebhook: the entry is posted to the main webhook, and
    nothing is posted when that webhook is missing or still the placeholder.
   */
  function RankChangePost(cfg: Config, d: RankChangeLog): (p: Option<Post>)
    ensures p.Some? <==> UsableUrl(cfg.webhookUrl)
    ensures p.Some? ==> p.value.url == cfg.webhookUrl.value && p.value.embed == RankEmbed(d)
  {
    match RankWebhookUrl(cfg)
    case None => None
    case Some(url) => Some(Post(url, RankEmbed(d)))
  }

  // ---------------------------------------------------------------------
  // Branch join-request decisions
  // ---------------------------------------------------------------------

  /** The decision value that means "accept"; anything else rejects. */
  const ACCEPT: string := "kabul"

  /** What handleBranchRequest hands to sendBranchRequestWebhook. */
  datatype BranchRequestLog = BranchRequestLog(
    decision: string,
    targetUser: string,
    manager: string,
    managerRank: string,
    branch: string,
    reason: Option<string>)

  /**
    The join-request log entry: green and "accepted" exactly for the accept
    decision, red and "rejected" for every other value; the reason field
    appears exactly when a reason is present.
   */
  function BranchRequestEmbed(d: BranchRequestLog): (e: Embed)
    ensures e.color == (if d.decision == ACCEPT then GREEN else RED)
    ensures e.title == (if d.decision == ACCEPT then "Branş İsteği Kabul Edildi" else "Branş İsteği Reddedildi")
    ensures HasFieldValue(e.fields, MANAGER_FIELD, d.manager + " (" + d.managerRank + ")")
    ensures HasFieldValue(e.fields, TARGET_FIELD, d.targetUser)
    ensures HasFieldValue(e.fields, BRANCH_FIELD, d.branch)
    ensures HasFieldValue(e.fields, DECISION_FIELD, if d.decision == ACCEPT then "Kabul Edildi" else "Reddedildi")
    ensures !HasFieldValue(e.fields, DECISION_FIELD, if d.decision == ACCEPT then "Reddedildi" else "Kabul Edildi")
    ensures HasField(e.fields, REASON_FIELD) <==> Present(d.reason)
    ensures Present(d.reason) ==> HasFieldValue(e.fields, REASON_FIELD, d.reason.value)
  {
    var accepted := d.decision == ACCEPT;
    var head := [Field(TARGET_FIELD, d.targetUser, true),
                 Field(MANAGER_FIELD, d.manager + " (" + d.managerRank + ")", true),
                 Field(SPACER, SPACER, true),
                 Field(BRANCH_FIELD, d.branch, true),
                 Field(DECISION_FIELD, if accepted then "Kabul Edildi" else "Reddedildi", true),
                 Field(SPACER, SPACER, true)];
    var reason := OptionalField(REASON_FIELD, d.reason, false);
    BranchFieldsFound(head, reason, d);
    Embed(if accepted then "Branş İsteği Kabul Edildi" else "Branş İsteği Reddedildi",
          if accepted then GREEN else RED,
          head + reason)
  }

  lemma BranchFieldsFound(head: seq<Field>, reason: seq<Field>, d: BranchRequestLog)
    requires head == [Field(TARGET_FIELD, d.targetUser, true),
                      Field(MANAGER_FIELD, d.manager + " (" + d.managerRank + ")", true),
                      Field(SPACER, SPACER, true),
                      Field(BRANCH_FIELD, d.branch, true),
                      Field(DECISION_FIELD, if d.decision == ACCEPT then "Kabul Edildi" else "Reddedildi", true),
                      Field(SPACER, SPACER, true)]
    requires reason == OptionalField(REASON_FIELD, d.reason, false)
    ensures var fs := head + reason;
      && HasFieldValue(fs, TARGET_FIELD, d.targetUser)
      && HasFieldValue(fs, MANAGER_FIELD, d.manager + " (" + d.managerRank + ")")
      && HasFieldValue(fs, BRANCH_FIELD, d.branch)
      && HasFieldValue(fs, DECISION_FIELD, if d.decision == ACCEPT then "Kabul Edildi" else "Reddedildi")
      && !HasFieldValue(fs, DECISION_FIELD, if d.decision == ACCEPT then "Reddedildi" else "Kabul Edildi")
      && (HasField(fs, REASON_FIELD) <==> Present(d.reason))
      && (Present(d.reason) ==> HasFieldValue(fs, REASON_FIELD, d.reason.value))
  {
    FieldNamesDistinct();
    assert "Kabul Edildi" != "Reddedildi" by {
      assert "Kabul Edildi"[0] == 'K' && "Reddedildi"[0] == 'R';
    }
    var names := {TARGET_FIELD, MANAGER_FIELD, SPACER, BRANCH_FIELD, DECISION_FIELD};
    forall f | f in head ensures f.name in names && (f.name == DECISION_FIELD ==> f == head[4]) {
      var k :| 0 <= k < |head| && head[k] == f;
    }
    assert !HasField(head, REASON_FIELD);
    assert head[0] in head && head[1] in head && head[3] in head && head[4] in head;
    HasFieldAppend(head, reason);
    forall f | f in head + reason && f.name == DECISION_FIELD ensures f == head[4] {
      assert f in head || f in reason;
    }
  }

  /**
    sendBranchRequestWebhook: posted to the branch webhook when usable, else
    to the main one, and not at all when neither is usable.
   */
  function BranchRequestPost(cfg: Config, d: BranchRequestLog): (p: Option<Post>)
    ensures p.Some? <==> UsableUrl(cfg.branchWebhookUrl) || UsableUrl(cfg.webhookUrl)
    ensures p.Some? && UsableUrl(cfg.branchWebhookUrl) ==> p.value.url == cfg.branchWebhookUrl.value
    ensures p.Some? && !UsableUrl(cfg.branchWebhookUrl) ==> p.value.url == cfg.webhookUrl.value
    ensures p.Some? ==> p.value.embed == BranchRequestEmbed(d)
  {
    match BranchRequestWebhookUrl(cfg)
    case None => None
    case Some(url) => Some(Post(url, BranchRequestEmbed(d)))
  }
}
