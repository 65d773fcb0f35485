/**
 * The earlier relay script at the repository root. Its rules differ from the
 * current bridge: the forward name uses the user's full name, photo and
 * video captions are screened for the literal `#noforward` only, video
 * posts never get a forward line, a missing application raises, reblogs
 * are not unwrapped, and exceptions are reported as `Exception: {e}`.
 *
 * The script converts status content with the markdownify library's own
 * function, not with the package's Telegram converter; the parameter
 * `libMarkdownify` below stands for that library function.
 */
module LegacyMain {
  import opened Wrappers
  import opened Strings
  import opened Records
  import opened Filters
  import opened Relay
  import Bridge
  import Footers

  /** The update the handler receives: a channel post or a plain message. */
  datatype Update = Update(channelPost: Option<Message>, message: Option<Message>)

  /** `update.channel_post or update.message`. */
  function PickMessage(u: Update): (r: Option<Message>)
    ensures u.channelPost.Some? ==> r == u.channelPost
    ensures u.channelPost.None? ==> r == u.message
  {
    if u.channelPost.Some? then u.channelPost else u.message
  }

  /** The forward name: the forwarding user's full name, else the chat's title, else the hidden sender's name. */
  function ForwardName(m: Message): (r: Option<string>)
    ensures m.forwardFrom.Some? ==> r == Some(m.forwardFrom.value.fullName)
    ensures m.forwardFrom.None? && m.forwardFromChat.Some? ==> r == m.forwardFromChat.value.title
    ensures m.forwardFrom.None? && m.forwardFromChat.None? ==>
      r == (if Truthy(m.forwardSenderName) then m.forwardSenderName else None)
  {
    if m.forwardFrom.Some? then Some(m.forwardFrom.value.fullName)
    else if m.forwardFromChat.Some? then m.forwardFromChat.value.title
    else if Truthy(m.forwardSenderName) then m.forwardSenderName
    else None
  }

  /** The decision `send_message_to_mastodon` takes once it has a message. */
  function DecideToMastodon(cfg: Config, m: Message): (r: Decision)
    ensures r.Reject? <==> m.chatId != cfg.channelChatId
    ensures r.Reject? ==> r.reply == WrongChannelReply
    ensures r.Reject? || r.Skip? || r.PostMastodon? || r.Fail?
    ensures r.Fail? ==> |m.photo| == 0 && m.video.None? && m.text.None?
    ensures r.PostMastodon? && r.status.None? ==> m.text.None?
  {
    if m.chatId != cfg.channelChatId then Reject(WrongChannelReply)
    else
      var name := ForwardName(m);
      if |m.photo| > 0 then
        if Truthy(m.mediaGroupId) then Skip(MediaGroup)
        else if Contains(OrEmpty(m.caption), "#noforward") then Skip(NoForwardTag)
        else PostMastodon(Some(OrEmpty(m.caption) + Bridge.ForwardLine(cfg, name) + Bridge.LinkLine(cfg, m)),
                          Some(m.photo[|m.photo| - 1].fileUniqueId))
      else if m.video.Some? then
        if Contains(OrEmpty(m.caption), "#noforward") then Skip(NoForwardTag)
        else PostMastodon(Some(OrEmpty(m.caption) + Bridge.LinkLine(cfg, m)), Some(Format(m.video.value.fileName)))
      else
        match m.text
        case None =>
          // `tag in None` raises first; with no tags, `None += str` raises
          // when a line is to be added; otherwise `None` goes to status_post.
          if |cfg.noforwardTags| > 0 then Fail(NoneNotIterable)
          else if cfg.showForwardInfo && Truthy(name) then Fail(NoneConcat)
          else if cfg.addLinkInMastodon then Fail(NoneConcat)
          else PostMastodon(None, None)
        case Some(text) =>
          if AnyContained(text, cfg.noforwardTags) then Skip(NoForwardTag)
          else PostMastodon(Some(text + Bridge.ForwardLine(cfg, name) + Bridge.LinkLine(cfg, m)), None)
  }

  /** The `except` branch: `Exception: {e}` to the private chat, without parse mode. */
  function Report(pmChatId: int, describe: Fault -> string): Fault -> Call
  {
    f => SendMessage(pmChatId, "Exception: " + describe(f), false, false)
  }

  /**
   * `send_message_to_mastodon`. An update with neither a channel post nor a
   * message raises before the `try`; the dispatcher's error handler only
   * logs it, so no call is made.
   */
  function SendMessageToMastodon(cfg: Config, u: Update, t: Transport, describe: Fault -> string): (calls: seq<Call>)
    ensures PickMessage(u).None? ==> calls == []
    ensures |calls| <= 3
    ensures forall i :: 0 <= i < |calls| ==> !calls[i].SendMediaGroup?
    ensures forall i :: 0 <= i < |calls| && calls[i].SendMessage? ==> calls[i].chat == cfg.pmChatId
  {
    match PickMessage(u)
    case None => []
    case Some(m) =>
      CallsStayPrivate(cfg, DecideToMastodon(cfg, m), t, Report(cfg.pmChatId, describe));
      Perform(cfg, DecideToMastodon(cfg, m), t, Report(cfg.pmChatId, describe))
  }

  /** A message from a foreign chat is only answered with the fixed reply. */
  lemma WrongChannelOnlyReplies(cfg: Config, u: Update, t: Transport, describe: Fault -> string)
    requires PickMessage(u).Some? && PickMessage(u).value.chatId != cfg.channelChatId
    ensures SendMessageToMastodon(cfg, u, t, describe) == [ReplyText("This bot is only for specific channel.")]
  {
  }

  /**
   * Photo and video captions are screened for the literal `#noforward`,
   * whatever the configured tags; photo posts get the forward line iff
   * `show_forward_info` and a name exist, video posts never; both get the
   * link iff `add_link_in_mastodon`.
   */
  lemma MediaPostRules(cfg: Config, m: Message)
    requires m.chatId == cfg.channelChatId && (|m.photo| > 0 || m.video.Some?)
    requires |m.photo| > 0 ==> !Truthy(m.mediaGroupId)
    ensures Contains(OrEmpty(m.caption), "#noforward") <==> DecideToMastodon(cfg, m) == Skip(NoForwardTag)
    ensures !Contains(OrEmpty(m.caption), "#noforward") && |m.photo| > 0 ==>
      DecideToMastodon(cfg, m).status ==
        Some(OrEmpty(m.caption) + Bridge.ForwardLine(cfg, ForwardName(m)) + Bridge.LinkLine(cfg, m))
    ensures !Contains(OrEmpty(m.caption), "#noforward") && |m.photo| == 0 ==>
      DecideToMastodon(cfg, m).status == Some(OrEmpty(m.caption) + Bridge.LinkLine(cfg, m))
  {
  }

  /** A photo that belongs to a media group is skipped. */
  lemma LegacyMediaGroupSkipped(cfg: Config, m: Message)
    requires m.chatId == cfg.channelChatId && |m.photo| > 0 && Truthy(m.mediaGroupId)
    ensures DecideToMastodon(cfg, m) == Skip(MediaGroup)
  {
  }

  /**
   * A text post is skipped iff one of the configured tags occurs in it;
   * otherwise it is the text, then the forward line iff `show_forward_info`
   * and a name, then the link line iff `add_link_in_mastodon`, each once.
   */
  lemma LegacyTextPostRules(cfg: Config, m: Message)
    requires m.chatId == cfg.channelChatId && |m.photo| == 0 && m.video.None? && m.text.Some?
    ensures AnyContained(m.text.value, cfg.noforwardTags) <==> DecideToMastodon(cfg, m) == Skip(NoForwardTag)
    ensures !AnyContained(m.text.value, cfg.noforwardTags) ==>
      DecideToMastodon(cfg, m) ==
        PostMastodon(Some(m.text.value + Bridge.ForwardLine(cfg, ForwardName(m)) + Bridge.LinkLine(cfg, m)), None)
  {
  }

  /** A message with none of photo, video or text raises, or posts `None`, instead of being skipped. */
  lemma MissingTextRaises(cfg: Config, m: Message, describe: Fault -> string)
    requires m.chatId == cfg.channelChatId && |m.photo| == 0 && m.video.None? && m.text.None?
    ensures |cfg.noforwardTags| > 0 ==>
      SendMessageToMastodon(cfg, Update(Some(m), None), Delivered, describe) ==
        [SendMessage(cfg.pmChatId, "Exception: " + describe(NoneNotIterable), false, false)]
    ensures |cfg.noforwardTags| == 0 && !cfg.addLinkInMastodon && !(cfg.showForwardInfo && Truthy(ForwardName(m))) ==>
      DecideToMastodon(cfg, m) == PostMastodon(None, None)
  {
  }

  /** A configured tag list of just `#noforward` screens exactly as the literal does. */
  lemma {:induction false} NoForwardOnly(text: string)
    ensures AnyContained(text, ["#noforward"]) == Contains(text, "#noforward")
  {
    assert ["#noforward"][1..] == [];
  }

  /** With no forwarding user, the current bridge writes a photo's text as the legacy script does. */
  lemma PhotoTextAgrees(cfg: Config, m: Message)
    requires m.forwardFrom.None?
    ensures Bridge.MediaPostText(cfg, m) == OrEmpty(m.caption) + Bridge.ForwardLine(cfg, ForwardName(m)) + Bridge.LinkLine(cfg, m)
  {
    assert Footers.ForwardName(m) == ForwardName(m);
  }

  /** With no forwarding user, a photo post is decided the same in both handlers. */
  lemma AgreesWithBridgeOnPhoto(cfg: Config, m: Message)
    requires cfg.noforwardTags == ["#noforward"]
    requires m.forwardFrom.None? && |m.photo| > 0
    ensures DecideToMastodon(cfg, m) == Bridge.DecideToMastodon(cfg, m)
  {
    if m.chatId == cfg.channelChatId && !Truthy(m.mediaGroupId) {
      NoForwardOnly(OrEmpty(m.caption));
      PhotoTextAgrees(cfg, m);
    }
  }

  /**
   * A text post with no forward name and no link line reads the same in
   * both handlers (the current bridge writes either line twice).
   */
  lemma AgreesWithBridgeOnText(cfg: Config, m: Message)
    requires m.forwardFrom.None? && |m.photo| == 0 && m.video.None? && Truthy(m.text)
    requires !Truthy(Footers.ForwardName(m)) && !cfg.addLinkInMastodon
    ensures DecideToMastodon(cfg, m) == Bridge.DecideToMastodon(cfg, m)
  {
    var t := m.text.value;
    assert !Truthy(ForwardName(m));
    assert Bridge.TextPostText(cfg, m) == t;
    assert t + Bridge.ForwardLine(cfg, ForwardName(m)) + Bridge.LinkLine(cfg, m) == t;
  }

  // ---------------------------------------------------------------------
  // Mastodon -> Telegram

  /**
   * `is_valid`, evaluated left to right: reading the name of a missing
   * application raises once the username has matched.
   */
  function IsValid(cfg: Config, s: Status): (r: Result<bool, Fault>)
    ensures s.account.username != cfg.mastodonUsername ==> r == Ok(false)
    ensures s.account.username == cfg.mastodonUsername && s.application.None? ==> r == Err(NoneAttribute("name"))
    ensures s.application.Some? ==> r == Ok(Bridge.ShouldForwardToTelegram(cfg, s))
  {
    if s.account.username != cfg.mastodonUsername then Ok(false)
    else if s.application.None? then Err(NoneAttribute("name"))
    else Ok(s.application.value.name != cfg.mastodonAppName && s.inReplyToId.None? && s.visibility in cfg.scope)
  }

  /** The decision `send_message_to_telegram` takes: no reblog unwrapping. */
  function DecideToTelegram(cfg: Config, s: Status, libMarkdownify: string -> string): (r: Decision)
    ensures IsValid(cfg, s) == Ok(false) <==> r == Skip(NotForwardable)
    ensures IsValid(cfg, s).Err? <==> r == Fail(NoneAttribute("name"))
    ensures IsValid(cfg, s) == Ok(true) ==> r.SendText? || r.SendGroup? || r == Fail(IndexError)
  {
    match IsValid(cfg, s)
    case Err(fault) => Fail(fault)
    case Ok(valid) => if valid then Bridge.ForwardStatus(cfg, s, libMarkdownify) else Skip(NotForwardable)
  }

  /** `send_message_to_telegram`: the calls made for one status. */
  function SendMessageToTelegram(cfg: Config, s: Status, libMarkdownify: string -> string,
                                 t: Transport, describe: Fault -> string): (calls: seq<Call>)
    ensures |calls| <= 1
    ensures forall i :: 0 <= i < |calls| ==>
      || (calls[i].SendMediaGroup? && calls[i].chat == cfg.channelChatId)
      || (calls[i].SendMessage? && (calls[i].chat == cfg.channelChatId || calls[i].chat == cfg.pmChatId))
  {
    Perform(cfg, DecideToTelegram(cfg, s, libMarkdownify), t, Report(cfg.pmChatId, describe))
  }

  /** A status of the bridge's account with no application is reported as an exception, and not sent. */
  lemma MissingApplicationReported(cfg: Config, s: Status, libMarkdownify: string -> string,
                                   t: Transport, describe: Fault -> string)
    requires s.account.username == cfg.mastodonUsername && s.application.None?
    ensures SendMessageToTelegram(cfg, s, libMarkdownify, t, describe) ==
      [SendMessage(cfg.pmChatId, "Exception: " + describe(NoneAttribute("name")), false, false)]
  {
  }

  /** A reblog is sent with the outer status's own content, URL and attachments. */
  lemma NoReblogUnwrapping(cfg: Config, s: Status, libMarkdownify: string -> string)
    requires IsValid(cfg, s) == Ok(true)
    ensures DecideToTelegram(cfg, s, libMarkdownify) == Bridge.ForwardStatus(cfg, s, libMarkdownify)
  {
  }

  /**
   * On statuses that are not reblogs and name an application, the legacy
   * decision is the current one, provided the library's converter and the
   * package's converter render the status content alike.
   */
  lemma AgreesWithBridgeOnPlainStatus(cfg: Config, s: Status,
                                      libMarkdownify: string -> string, pkgMarkdownify: string -> string)
    requires s.application.Some? && s.reblog.None?
    requires libMarkdownify(s.content) == pkgMarkdownify(s.content)
    ensures DecideToTelegram(cfg, s, libMarkdownify) == Bridge.DecideToTelegram(cfg, s, pkgMarkdownify)
  {
  }
}
