/**
 * The option records the bridge is configured with, and their default values.
 * The filter and footer parts of each direction are kept as the raw values the
 * filter and footer constructors receive; validation happens in those
 * constructors, so the facts below are that the defaults pass it, and
 * that together they keep the bridge's own posts from coming back.
 */
module Types {
  import opened Wrappers
  import opened Strings
  import opened Records
  import opened Filters
  import opened Footers

  /** A media group: the messages collected for one post and the footer they share. */
  datatype MediaGroup = MediaGroup(messages: seq<Message>, footer: string)

  datatype MastodonToTelegramFilterOptions = MastodonToTelegramFilterOptions(scope: seq<string>)
  datatype MastodonToTelegramFooterOptions = MastodonToTelegramFooterOptions(addLink: bool, tags: seq<string>)

  datatype MastodonToTelegramOptions = MastodonToTelegramOptions(
    disable: bool,
    channelChatId: int,
    pmChatId: int,
    forwardReblogLinkOnly: bool,
    filter: MastodonToTelegramFilterOptions,
    footer: MastodonToTelegramFooterOptions)

  datatype TelegramToMastodonFilterOptions = TelegramToMastodonFilterOptions(includeTags: seq<string>, excludeTags: seq<string>)
  datatype TelegramToMastodonFooterOptions = TelegramToMastodonFooterOptions(addLink: bool, showForwardFrom: bool)

  datatype TelegramToMastodonOptions = TelegramToMastodonOptions(
    disable: bool,
    channelChatId: int,
    pmChatId: int,
    filter: TelegramToMastodonFilterOptions,
    footer: TelegramToMastodonFooterOptions)

  /** The defaults of `MastodonToTelegramOptions`. */
  const DefaultMastodonToTelegram: MastodonToTelegramOptions :=
    MastodonToTelegramOptions(
      false, 0, 0, true,
      MastodonToTelegramFilterOptions(["public", "unlisted"]),
      MastodonToTelegramFooterOptions(true, ["#mastodon"]))

  /** The defaults of `TelegramToMastodonOptions`. */
  const DefaultTelegramToMastodon: TelegramToMastodonOptions :=
    TelegramToMastodonOptions(
      false, 0, 0,
      TelegramToMastodonFilterOptions([], ["#nofwd", "#noforward", "#mastodon"]),
      TelegramToMastodonFooterOptions(false, true))

  /** The Mastodon -> Telegram filter the options describe, once constructed. */
  function TelegramFilterOf(o: MastodonToTelegramOptions): (r: Result<TelegramFilter, FilterError>)
    ensures r.Ok? ==> r.value.scope == o.filter.scope
  {
    NewTelegramFilter(o.filter.scope)
  }

  /** The Telegram -> Mastodon filter the options describe, once constructed. */
  function MastodonFilterOf(o: TelegramToMastodonOptions): (r: Result<MastodonFilter, FilterError>)
    ensures r.Ok? ==> r.value == MastodonFilter(o.filter.includeTags, o.filter.excludeTags)
  {
    NewMastodonFilter(o.filter.includeTags, o.filter.excludeTags)
  }

  function TelegramFooterOf(o: MastodonToTelegramOptions): TelegramFooter
  {
    TelegramFooter(o.footer.addLink, o.footer.tags)
  }

  function MastodonFooterOf(o: TelegramToMastodonOptions): MastodonFooter
  {
    MastodonFooter(o.footer.addLink, o.footer.showForwardFrom)
  }

  /**
   * The default scope passes validation, and the filter built from it lets
   * through exactly the public and unlisted statuses that answer nothing.
   */
  lemma DefaultScopeValid(s: Status)
    ensures TelegramFilterOf(DefaultMastodonToTelegram) == Ok(TelegramFilter(["public", "unlisted"]))
    ensures TelegramAccepts(TelegramFilter(["public", "unlisted"]), s) <==>
      s.inReplyToId.None? && (s.visibility == "public" || s.visibility == "unlisted")
  {
    var scope := DefaultMastodonToTelegram.filter.scope;
    assert forall i :: 0 <= i < |scope| ==> scope[i] in Visibilities;
  }

  /** The default tag lists are disjoint and all hashtags, so they pass validation. */
  lemma DefaultTagsValid()
    ensures MastodonFilterOf(DefaultTelegramToMastodon) ==
      Ok(MastodonFilter([], ["#nofwd", "#noforward", "#mastodon"]))
  {
    var ex := DefaultTelegramToMastodon.filter.excludeTags;
    assert forall i :: 0 <= i < |ex| ==> IsPrefix("#", ex[i]);
  }

  /** With the default footer a status is sent with its URL, then the tag line `#mastodon`. */
  lemma DefaultTelegramFooter(s: Status)
    ensures TelegramFooterLines(TelegramFooterOf(DefaultMastodonToTelegram), s) == [s.url, "#mastodon"]
    ensures TelegramFooterText(TelegramFooterOf(DefaultMastodonToTelegram), s) == s.url + "\n" + "#mastodon"
  {
    assert Join(["#mastodon"], " ") == "#mastodon";
    var lines := [s.url, "#mastodon"];
    assert lines[1..] == ["#mastodon"];
    assert Render(lines) == s.url + "\n" + Join(["#mastodon"], "\n");
  }

  /** With the default footer a post gets the forward lines but never the message's own link. */
  lemma DefaultMastodonFooter(m: Message)
    ensures MastodonFooterLines(MastodonFooterOf(DefaultTelegramToMastodon), m) ==
      (if Truthy(ForwardName(m)) then [ForwardedFrom(ForwardName(m).value)] else []) +
      (if ForwardLink(m).Some? then [ForwardLink(m).value] else [])
  {
  }

  /**
   * Loop prevention: a text that carries the default Mastodon -> Telegram
   * footer anywhere in it is refused by the default Telegram -> Mastodon
   * filter, because the footer's tag `#mastodon` is one of its exclusions.
   */
  lemma {:induction false} DefaultFooterNotReflected(s: Status, text: string)
    requires Contains(text, TelegramFooterText(TelegramFooterOf(DefaultMastodonToTelegram), s))
    ensures MastodonFilterOf(DefaultTelegramToMastodon).Ok?
    ensures !Accepts(MastodonFilterOf(DefaultTelegramToMastodon).value, text)
  {
    DefaultTagsValid();
    var footer := TelegramFooterOf(DefaultMastodonToTelegram);
    TelegramFooterHoldsTags(footer, s, 0);
    ContainsTransitive(text, TelegramFooterText(footer, s), "#mastodon");
    var f := MastodonFilterOf(DefaultTelegramToMastodon).value;
    assert f.excludeTags[2] == "#mastodon";
  }
}
