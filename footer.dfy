/**
 * Footer builders: the trailing lines appended to a relayed post. As with
 * the filters, each is named after its destination: `MastodonFooter`
 * annotates a Telegram message relayed to Mastodon, `TelegramFooter` a
 * Mastodon status relayed to Telegram.
 */
module Footers {
  import opened Wrappers
  import opened Strings
  import opened Records

  /** `Footer._forwarded_from`. */
  function ForwardedFrom(name: string): string
  {
    "Forwarded from " + name
  }

  /** `Footer.__call__`: the lines joined with newlines. */
  function Render(lines: seq<string>): (r: string)
    ensures |lines| == 0 ==> r == ""
    ensures |lines| == 1 ==> r == lines[0]
    ensures |lines| >= 2 ==> r == lines[0] + "\n" + Join(lines[1..], "\n")
  {
    Join(lines, "\n")
  }

  /** No lines render as the empty text. */
  lemma RenderEmpty()
    ensures Render([]) == ""
  {
  }

  /** The rendered footer splits back into its lines when no line holds a newline. */
  lemma RenderSplitsBack(lines: seq<string>)
    requires |lines| >= 1
    requires forall k :: 0 <= k < |lines| ==> '\n' !in lines[k]
    ensures Split(Render(lines), '\n') == lines
  {
    SplitJoin(lines, '\n');
  }

  /** Every line of a footer occurs in its rendering. */
  lemma RenderContainsLine(lines: seq<string>, k: nat)
    requires k < |lines|
    ensures Contains(Render(lines), lines[k])
  {
    JoinContainsPart(lines, "\n", k);
  }

  // ---------------------------------------------------------------------
  // MastodonFooter

  datatype MastodonFooter = MastodonFooter(addLink: bool, showForwardFrom: bool)

  /**
   * The name a forwarded message came from: the forwarding user's name, else
   * the forwarding chat's title, else the hidden sender's name when it is
   * non-empty, else none. The bridge's `_get_forward_name` is the same code.
   */
  function ForwardName(m: Message): (r: Option<string>)
    ensures m.forwardFrom.Some? ==> r == Some(m.forwardFrom.value.name)
    ensures m.forwardFrom.None? && m.forwardFromChat.Some? ==> r == m.forwardFromChat.value.title
    ensures m.forwardFrom.None? && m.forwardFromChat.None? ==>
      r == (if Truthy(m.forwardSenderName) then m.forwardSenderName else None)
  {
    if m.forwardFrom.Some? then Some(m.forwardFrom.value.name)
    else if m.forwardFromChat.Some? then m.forwardFromChat.value.title
    else if Truthy(m.forwardSenderName) then m.forwardSenderName
    else None
  }

  /** The link to the forwarded original, when the forwarding chat has a link. */
  function ForwardLink(m: Message): (r: Option<string>)
    ensures r.Some? <==> m.forwardFromChat.Some? && Truthy(m.forwardFromChat.value.link)
    ensures r.Some? ==> r.value == m.forwardFromChat.value.link.value + "/" + FormatInt(m.forwardFromMessageId)
  {
    if m.forwardFromChat.Some? && Truthy(m.forwardFromChat.value.link)
    then Some(m.forwardFromChat.value.link.value + "/" + FormatInt(m.forwardFromMessageId))
    else None
  }

  /** Specification of `MastodonFooter.make_footer`: the lines in the order they are appended. */
  function MastodonFooterLines(f: MastodonFooter, m: Message): seq<string>
  {
    var name := ForwardName(m);
    var link := ForwardLink(m);
    (if f.showForwardFrom && Truthy(name) then [ForwardedFrom(name.value)] else []) +
    (if f.showForwardFrom && link.Some? then [link.value] else []) +
    (if f.addLink && m.link.Some? then [m.link.value] else [])
  }

  /** `MastodonFooter.make_footer`, appending to a local list. */
  method MakeMastodonFooter(f: MastodonFooter, m: Message) returns (footer: seq<string>)
    ensures footer == MastodonFooterLines(f, m)
    ensures |footer| ==
      (if f.showForwardFrom && Truthy(ForwardName(m)) then 1 else 0) +
      (if f.showForwardFrom && ForwardLink(m).Some? then 1 else 0) +
      (if f.addLink && m.link.Some? then 1 else 0)
    ensures |footer| <= 3
    ensures f.showForwardFrom && Truthy(ForwardName(m)) ==> footer[0] == ForwardedFrom(ForwardName(m).value)
    ensures f.addLink && m.link.Some? ==> footer[|footer| - 1] == m.link.value
    ensures !f.showForwardFrom ==> footer == (if f.addLink && m.link.Some? then [m.link.value] else [])
  {
    footer := [];
    if f.showForwardFrom {
      var forwardFrom := ForwardName(m);
      if Truthy(forwardFrom) {
        footer := footer + [ForwardedFrom(forwardFrom.value)];
      }
      var forwardLink := ForwardLink(m);
      if forwardLink.Some? {
        footer := footer + [forwardLink.value];
      }
    }
    if f.addLink && m.link.Some? {
      footer := footer + [m.link.value];
    }
  }

  /**
   * The forwarded-from line names the first present source: a forwarded
   * user's name, else the forwarded chat's title, else the hidden sender's
   * name; an empty or missing name gives no line.
   */
  lemma ForwardedLinePriority(f: MastodonFooter, m: Message)
    requires f.showForwardFrom
    ensures m.forwardFrom.Some? && m.forwardFrom.value.name != "" ==>
      MastodonFooterLines(f, m)[0] == ForwardedFrom(m.forwardFrom.value.name)
    ensures m.forwardFrom.None? && m.forwardFromChat.Some? && Truthy(m.forwardFromChat.value.title) ==>
      MastodonFooterLines(f, m)[0] == ForwardedFrom(m.forwardFromChat.value.title.value)
    ensures m.forwardFrom.None? && m.forwardFromChat.None? && Truthy(m.forwardSenderName) ==>
      MastodonFooterLines(f, m)[0] == ForwardedFrom(m.forwardSenderName.value)
    ensures m.forwardFrom.None? && m.forwardFromChat.None? && !Truthy(m.forwardSenderName) ==>
      MastodonFooterLines(f, m) == (if f.addLink && m.link.Some? then [m.link.value] else [])
  {
  }

  /** `MastodonFooter.__call__`. */
  function MastodonFooterText(f: MastodonFooter, m: Message): string
  {
    Render(MastodonFooterLines(f, m))
  }

  // ---------------------------------------------------------------------
  // TelegramFooter

  datatype TelegramFooter = TelegramFooter(addLink: bool, tags: seq<string>)

  /** Specification of `TelegramFooter.make_footer`. */
  function TelegramFooterLines(f: TelegramFooter, s: Status): seq<string>
  {
    (if f.addLink then [s.url] else []) + (if |f.tags| > 0 then [Join(f.tags, " ")] else [])
  }

  /** `TelegramFooter.make_footer`, appending to a local list. */
  method MakeTelegramFooter(f: TelegramFooter, s: Status) returns (footer: seq<string>)
    ensures footer == TelegramFooterLines(f, s)
    ensures |footer| == (if f.addLink then 1 else 0) + (if |f.tags| > 0 then 1 else 0)
    ensures f.addLink ==> footer[0] == s.url
    ensures |f.tags| > 0 ==> footer[|footer| - 1] == Join(f.tags, " ")
  {
    footer := [];
    if f.addLink {
      footer := footer + [s.url];
    }
    if |f.tags| > 0 {
      footer := footer + [Join(f.tags, " ")];
    }
  }

  /** `TelegramFooter.__call__`. */
  function TelegramFooterText(f: TelegramFooter, s: Status): string
  {
    Render(TelegramFooterLines(f, s))
  }

  /** Every footer tag occurs in the rendered Telegram footer. */
  lemma TelegramFooterHoldsTags(f: TelegramFooter, s: Status, k: nat)
    requires k < |f.tags|
    ensures Contains(TelegramFooterText(f, s), f.tags[k])
  {
    var lines := TelegramFooterLines(f, s);
    var tagLine := Join(f.tags, " ");
    JoinContainsPart(f.tags, " ", k);
    RenderContainsLine(lines, |lines| - 1);
    ContainsTransitive(TelegramFooterText(f, s), tagLine, f.tags[k]);
  }
}
