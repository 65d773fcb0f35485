/**
 * The current relay: the self-post test, the Telegram channel post handler
 * (to Mastodon) and the Mastodon status handler (to Telegram), each as the
 * decision it takes followed by the transport calls it makes.
 *
 * `markdownify` (HTML to Telegram Markdown) and `format_exception` are
 * parameters: the first is a library conversion, the second a traceback
 * renderer.
 */
module Bridge {
  import opened Wrappers
  import opened Strings
  import opened Records
  import opened Filters
  import opened Footers
  import opened Relay

  /** `_should_forward_to_telegram`: posted by the bridge's account, not through the bridge's own app. */
  predicate ShouldForwardToTelegram(cfg: Config, s: Status)
    ensures ShouldForwardToTelegram(cfg, s) ==>
      s.account.username == cfg.mastodonUsername && s.application != Some(Application(cfg.mastodonAppName))
    ensures ShouldForwardToTelegram(cfg, s) ==> s.inReplyToId.None? && s.visibility in cfg.scope
  {
    && s.account.username == cfg.mastodonUsername
    && (s.application.None? || s.application.value.name != cfg.mastodonAppName)
    && s.inReplyToId.None?
    && s.visibility in cfg.scope
  }

  /** The test is authorship plus the built-in Mastodon -> Telegram filter over the configured scope. */
  lemma ShouldForwardIsAuthorAndFilter(cfg: Config, s: Status)
    ensures ShouldForwardToTelegram(cfg, s) <==>
      s.account.username == cfg.mastodonUsername &&
      s.application != Some(Application(cfg.mastodonAppName)) &&
      TelegramAccepts(TelegramFilter(cfg.scope), s)
  {
  }

  /**
   * Loop prevention: a status the bridge itself posted (its account, its
   * application) is never sent back; a status with no application counts
   * as foreign.
   */
  lemma OwnPostsNotReflected(cfg: Config, s: Status)
    ensures s.application == Some(Application(cfg.mastodonAppName)) ==> !ShouldForwardToTelegram(cfg, s)
    ensures (s.application.None? && s.account.username == cfg.mastodonUsername &&
             s.inReplyToId.None? && s.visibility in cfg.scope) ==> ShouldForwardToTelegram(cfg, s)
  {
  }

  /** The link back to the channel post: `str(chat_id)[4:]` drops the `-100` of a channel id. */
  function ChannelLink(m: Message): string
  {
    "from: https://t.me/c/" + DropPrefix(IntToString(m.chatId), 4) + "/" + IntToString(m.messageId)
  }

  /** Appending one digit to a number appends it to the number's decimal text. */
  lemma DigitStep(n: nat, d: nat, prefix: string, c: char)
    requires 1 <= n && d < 10 && c == "0123456789"[d] && NatToString(n) == prefix
    ensures NatToString(n * 10 + d) == prefix + [c]
  {
    assert (n * 10 + d) / 10 == n && (n * 10 + d) % 10 == d;
  }

  /** The decimal digits of the sample channel number. */
  lemma SampleDigits()
    ensures NatToString(10012) == "10012"
  {
    assert NatToString(1) == "1";
    DigitStep(1, 0, "1", '0');
    assert "1" + ['0'] == "10";
    DigitStep(10, 0, "10", '0');
    assert "10" + ['0'] == "100";
    DigitStep(100, 1, "100", '1');
    assert "100" + ['1'] == "1001";
    DigitStep(1001, 2, "1001", '2');
    assert "1001" + ['2'] == "10012";
  }

  /** The decimal text of the sample channel id. */
  lemma SampleChannelDigits()
    ensures IntToString(-10012) == "-10012"
  {
    SampleDigits();
    assert IntToString(-10012) == "-" + NatToString(10012);
  }

  /**
   * For every channel id, written `-100` followed by the channel's own number,
   * the link names the channel by that number and then the message id.
   */
  lemma ChannelLinkDropsPrefix(m: Message, d: string)
    requires IntToString(m.chatId) == "-100" + d
    ensures ChannelLink(m) == "from: https://t.me/c/" + d + "/" + IntToString(m.messageId)
  {
    assert DropPrefix("-100" + d, 4) == d;
  }

  /** A concrete channel id `-10012`: the link names channel `12`. */
  lemma ChannelLinkExample(m: Message)
    requires m.chatId == -10012 && m.messageId == 7
    ensures ChannelLink(m) == "from: https://t.me/c/12/7"
  {
    SampleChannelDigits();
    assert DropPrefix("-10012", 4) == "12";
    assert IntToString(7) == "7";
  }

  /** The line `show_forward_info` adds: the forward name, when there is one. */
  function ForwardLine(cfg: Config, name: Option<string>): string
  {
    if cfg.showForwardInfo && Truthy(name) then "\n\nForwarded from " + name.value else ""
  }

  /** The line a text post gets first, whatever `show_forward_info` says. */
  function TelegramForwardLine(name: Option<string>): string
  {
    if Truthy(name) then "\n\nForwarded from telegram: " + name.value else ""
  }

  /** The line `add_link_in_mastodon` adds: the link back to the channel post. */
  function LinkLine(cfg: Config, m: Message): string
  {
    if cfg.addLinkInMastodon then "\n\n" + ChannelLink(m) else ""
  }

  /** What every post gets at the end: the forward line, then the link line. */
  function PostSuffix(cfg: Config, m: Message, name: Option<string>, text: string): string
  {
    text + ForwardLine(cfg, name) + LinkLine(cfg, m)
  }

  /** What a text post gets first: its own forward line and a link line. */
  function TextPostBody(cfg: Config, m: Message, name: Option<string>, text: string): string
  {
    text + TelegramForwardLine(name) + LinkLine(cfg, m)
  }

  /** The post text of a photo or video: the caption, then the common tail. */
  function MediaPostText(cfg: Config, m: Message): string
  {
    PostSuffix(cfg, m, ForwardName(m), OrEmpty(m.caption))
  }

  /** The post text of a text message. */
  function TextPostText(cfg: Config, m: Message): string
    requires m.text.Some?
  {
    var name := ForwardName(m);
    PostSuffix(cfg, m, name, TextPostBody(cfg, m, name, m.text.value))
  }

  /** The decision `_send_message_to_mastodon` takes for a channel post. */
  function DecideToMastodon(cfg: Config, m: Message): (r: Decision)
    ensures r.Reject? <==> m.chatId != cfg.channelChatId
    ensures r.Reject? ==> r.reply == WrongChannelReply
    ensures r.Reject? || r.Skip? || r.PostMastodon?
    ensures r.PostMastodon? ==> r.status.Some? && (r.media.Some? <==> |m.photo| > 0 || m.video.Some?)
    ensures r.PostMastodon? && |m.photo| > 0 ==> r.media == Some(m.photo[|m.photo| - 1].fileUniqueId)
  {
    if m.chatId != cfg.channelChatId then Reject(WrongChannelReply)
    else if |m.photo| > 0 then
      if Truthy(m.mediaGroupId) then Skip(MediaGroup)
      else if AnyContained(OrEmpty(m.caption), cfg.noforwardTags) then Skip(NoForwardTag)
      else PostMastodon(Some(MediaPostText(cfg, m)), Some(m.photo[|m.photo| - 1].fileUniqueId))
    else if m.video.Some? then
      if AnyContained(OrEmpty(m.caption), cfg.noforwardTags) then Skip(NoForwardTag)
      else PostMastodon(Some(MediaPostText(cfg, m)), Some(Format(m.video.value.fileName)))
    else if Truthy(m.text) then
      if AnyContained(m.text.value, cfg.noforwardTags) then Skip(NoForwardTag)
      else PostMastodon(Some(TextPostText(cfg, m)), None)
    else Skip(Unsupported)
  }

  /** The `except` branch: the formatted exception, in a code block, to the private chat. */
  function Report(pmChatId: int, describe: Fault -> string): Fault -> Call
  {
    f => SendMessage(pmChatId, "```" + describe(f) + "```", true, false)
  }

  /** `_send_message_to_mastodon`: the calls made for one channel post. */
  function SendMessageToMastodon(cfg: Config, m: Message, t: Transport, describe: Fault -> string): (calls: seq<Call>)
    ensures |calls| <= 3
    ensures forall i :: 0 <= i < |calls| ==> !calls[i].SendMediaGroup?
    ensures forall i :: 0 <= i < |calls| && calls[i].SendMessage? ==> calls[i].chat == cfg.pmChatId
  {
    CallsStayPrivate(cfg, DecideToMastodon(cfg, m), t, Report(cfg.pmChatId, describe));
    Perform(cfg, DecideToMastodon(cfg, m), t, Report(cfg.pmChatId, describe))
  }

  /** A post from another chat only gets the fixed reply: nothing is posted, nothing reported. */
  lemma WrongChannelOnlyReplies(cfg: Config, m: Message, t: Transport, describe: Fault -> string)
    requires m.chatId != cfg.channelChatId
    ensures SendMessageToMastodon(cfg, m, t, describe) == [ReplyText("This bot is only for specific channel.")]
  {
  }

  /** Media groups, posts with no photo, video or text, and posts carrying a no-forward tag make no call. */
  lemma SkippedPostsMakeNoCall(cfg: Config, m: Message, t: Transport, describe: Fault -> string)
    requires m.chatId == cfg.channelChatId
    ensures |m.photo| > 0 && Truthy(m.mediaGroupId) ==> SendMessageToMastodon(cfg, m, t, describe) == []
    ensures |m.photo| == 0 && m.video.None? && !Truthy(m.text) ==> SendMessageToMastodon(cfg, m, t, describe) == []
    ensures ((|m.photo| > 0 || m.video.Some?) && !Truthy(m.mediaGroupId) &&
             exists i :: 0 <= i < |cfg.noforwardTags| && Contains(OrEmpty(m.caption), cfg.noforwardTags[i])) ==>
              SendMessageToMastodon(cfg, m, t, describe) == []
    ensures (|m.photo| == 0 && m.video.None? && Truthy(m.text) &&
             exists i :: 0 <= i < |cfg.noforwardTags| && Contains(m.text.value, cfg.noforwardTags[i])) ==>
              SendMessageToMastodon(cfg, m, t, describe) == []
  {
  }

  /**
   * A photo or video post is the caption (or nothing), then the forward line
   * iff `show_forward_info` holds and a name exists, then the channel link
   * iff `add_link_in_mastodon`; with a working transport it is uploaded,
   * posted publicly and acknowledged in the private chat.
   */
  lemma MediaPostAssembly(cfg: Config, m: Message, describe: Fault -> string)
    requires m.chatId == cfg.channelChatId && (|m.photo| > 0 || m.video.Some?)
    requires |m.photo| > 0 ==> !Truthy(m.mediaGroupId)
    requires !AnyContained(OrEmpty(m.caption), cfg.noforwardTags)
    ensures var name := ForwardName(m);
      MediaPostText(cfg, m) == OrEmpty(m.caption) +
        (if cfg.showForwardInfo && Truthy(name) then "\n\nForwarded from " + name.value else "") +
        (if cfg.addLinkInMastodon then "\n\n" + ChannelLink(m) else "")
    ensures var d := DecideToMastodon(cfg, m);
      d.PostMastodon? && d.status == Some(MediaPostText(cfg, m)) && d.media.Some? &&
      SendMessageToMastodon(cfg, m, Delivered, describe) ==
        [UploadMedia(d.media.value),
         PostStatus(Some(MediaPostText(cfg, m)), "public", true),
         SendMessage(cfg.pmChatId, "Successfully forward message to mastodon.\n" + MediaPostText(cfg, m), false, false)]
  {
  }

  /**
   * A text post takes the forward and link lines twice over: once in the
   * text branch (the forward line even when `show_forward_info` is off) and
   * once more in the common tail.
   */
  lemma TextPostAssembly(cfg: Config, m: Message)
    requires m.chatId == cfg.channelChatId && |m.photo| == 0 && m.video.None? && Truthy(m.text)
    requires !AnyContained(m.text.value, cfg.noforwardTags)
    ensures var name := ForwardName(m);
      var link := if cfg.addLinkInMastodon then "\n\n" + ChannelLink(m) else "";
      DecideToMastodon(cfg, m) == PostMastodon(Some(
        m.text.value +
        (if Truthy(name) then "\n\nForwarded from telegram: " + name.value else "") + link +
        (if cfg.showForwardInfo && Truthy(name) then "\n\nForwarded from " + name.value else "") + link), None)
  {
  }

  /** With `add_link_in_mastodon`, the channel link occurs twice, at separate places, in a text post. */
  lemma TextPostLinkTwice(cfg: Config, m: Message)
    requires m.text.Some? && cfg.addLinkInMastodon
    ensures exists i, j :: (i + |ChannelLink(m)| < j &&
      OccursAt(TextPostText(cfg, m), ChannelLink(m), i) && OccursAt(TextPostText(cfg, m), ChannelLink(m), j))
  {
    var name := ForwardName(m);
    var first := m.text.value + TelegramForwardLine(name);
    var middle := ForwardLine(cfg, name);
    assert TextPostText(cfg, m) == first + LinkLine(cfg, m) + middle + LinkLine(cfg, m);
    LinkLineTwice(first, ChannelLink(m), middle);
  }

  /** A link line written twice, with anything before and between, holds the link at two separate places. */
  lemma LinkLineTwice(first: string, link: string, middle: string)
    ensures var t := first + ("\n\n" + link) + middle + ("\n\n" + link);
      exists i, j :: i + |link| < j && OccursAt(t, link, i) && OccursAt(t, link, j)
  {
    var t := first + ("\n\n" + link) + middle + ("\n\n" + link);
    assert t == (first + "\n\n") + link + (middle + "\n\n") + link;
    OccursTwice(first + "\n\n", link, middle + "\n\n");
  }

  // ---------------------------------------------------------------------
  // Mastodon -> Telegram

  /** The message text: the converted content, then (with no separator) the link. */
  function TelegramText(cfg: Config, src: Status, markdownify: string -> string): string
  {
    markdownify(src.content) + (if cfg.addLinkInTelegram then "from: " + src.url else "")
  }

  /** What is sent for a status whose content (after unwrapping a reblog) is `src`. */
  function ForwardStatus(cfg: Config, src: Status, markdownify: string -> string): (r: Decision)
    ensures r.SendText? || r.SendGroup? || r.Fail?
    ensures r.SendText? <==> |src.mediaAttachments| == 0
    ensures r.SendText? ==> r.chat == cfg.channelChatId && r.text == TelegramText(cfg, src, markdownify)
    ensures r.SendGroup? ==> r.chat == cfg.channelChatId && |r.medias| > 0
    ensures r.Fail? ==> r.fault == IndexError
  {
    var txt := TelegramText(cfg, src, markdownify);
    if |src.mediaAttachments| > 0 then
      match Captioned(MediaItems(src.mediaAttachments), txt)
      case Ok(medias) => SendGroup(cfg.channelChatId, medias)
      case Err(fault) => Fail(fault)
    else SendText(cfg.channelChatId, txt)
  }

  /** The decision `_send_message_to_telegram` takes: test the outer status, then unwrap a reblog. */
  function DecideToTelegram(cfg: Config, s: Status, markdownify: string -> string): (r: Decision)
    ensures !ShouldForwardToTelegram(cfg, s) <==> r == Skip(NotForwardable)
    ensures r.SendText? || r.SendGroup? || r.Fail? || r.Skip?
    ensures ShouldForwardToTelegram(cfg, s) && s.reblog.None? ==> r == ForwardStatus(cfg, s, markdownify)
    ensures ShouldForwardToTelegram(cfg, s) && s.reblog.Some? ==> r == ForwardStatus(cfg, s.reblog.value, markdownify)
  {
    if !ShouldForwardToTelegram(cfg, s) then Skip(NotForwardable)
    else ForwardStatus(cfg, if s.reblog.Some? then s.reblog.value else s, markdownify)
  }

  /** `_send_message_to_telegram`: the calls made for one status. */
  function SendMessageToTelegram(cfg: Config, s: Status, markdownify: string -> string,
                                 t: Transport, describe: Fault -> string): (calls: seq<Call>)
    ensures |calls| <= 1
    ensures forall i :: 0 <= i < |calls| ==>
      || (calls[i].SendMediaGroup? && calls[i].chat == cfg.channelChatId)
      || (calls[i].SendMessage? && (calls[i].chat == cfg.channelChatId || calls[i].chat == cfg.pmChatId))
  {
    Perform(cfg, DecideToTelegram(cfg, s, markdownify), t, Report(cfg.pmChatId, describe))
  }

  /**
   * The forwarding test reads the outer status only, and for a reblog what
   * is sent is built from the reblogged status's content, URL and
   * attachments: changing the outer ones, or the inner visibility and reply
   * target, changes nothing.
   */
  lemma ReblogUnwrapped(cfg: Config, s: Status, markdownify: string -> string,
                        content: string, url: string, atts: seq<Attachment>, vis: string, reply: Option<int>)
    requires s.reblog.Some?
    ensures ShouldForwardToTelegram(cfg, s) ==>
      DecideToTelegram(cfg, s, markdownify) == ForwardStatus(cfg, s.reblog.value, markdownify)
    ensures ShouldForwardToTelegram(cfg, s) && |s.reblog.value.mediaAttachments| == 0 ==>
      DecideToTelegram(cfg, s, markdownify) == SendText(cfg.channelChatId, TelegramText(cfg, s.reblog.value, markdownify))
    ensures DecideToTelegram(cfg, s, markdownify) ==
            DecideToTelegram(cfg, s.(content := content, url := url, mediaAttachments := atts), markdownify)
    ensures DecideToTelegram(cfg, s, markdownify) ==
            DecideToTelegram(cfg, s.(reblog := Some(s.reblog.value.(visibility := vis, inReplyToId := reply))), markdownify)
  {
  }

  /** A status that fails the forwarding test makes no call. */
  lemma NotForwardedMakesNoCall(cfg: Config, s: Status, markdownify: string -> string,
                                t: Transport, describe: Fault -> string)
    requires !ShouldForwardToTelegram(cfg, s)
    ensures SendMessageToTelegram(cfg, s, markdownify, t, describe) == []
  {
  }

  /**
   * Sending: without attachments, the text alone to the channel; with image
   * or video attachments, one group entry each in order, the text as the
   * first entry's caption; with attachments none of which is an image or a
   * video, `medias[0]` raises and the report goes to the private chat.
   */
  lemma ForwardStatusSends(cfg: Config, src: Status, markdownify: string -> string, describe: Fault -> string)
    ensures |src.mediaAttachments| == 0 ==>
      ForwardStatus(cfg, src, markdownify) == SendText(cfg.channelChatId, TelegramText(cfg, src, markdownify))
    ensures var d := ForwardStatus(cfg, src, markdownify);
      CountMedia(src.mediaAttachments) > 0 ==>
        && d.SendGroup? && d.chat == cfg.channelChatId
        && |d.medias| == CountMedia(src.mediaAttachments)
        && d.medias[0] == MediaItems(src.mediaAttachments)[0].(caption := Some(TelegramText(cfg, src, markdownify)))
        && (forall i :: 1 <= i < |d.medias| ==> d.medias[i].caption.None?)
        && d.medias[1..] == MediaItems(src.mediaAttachments)[1..]
    ensures (|src.mediaAttachments| > 0 && CountMedia(src.mediaAttachments) == 0) ==>
      ForwardStatus(cfg, src, markdownify) == Fail(IndexError) &&
      Perform(cfg, ForwardStatus(cfg, src, markdownify), Delivered, Report(cfg.pmChatId, describe)) ==
        [SendMessage(cfg.pmChatId, "```" + describe(IndexError) + "```", true, false)]
  {
    MediaItemsShape(src.mediaAttachments);
    if CountMedia(src.mediaAttachments) > 0 {
      var items := MediaItems(src.mediaAttachments);
      var d := ForwardStatus(cfg, src, markdownify);
      assert d.medias[1..] == items[1..];
      forall i | 1 <= i < |d.medias|
        ensures d.medias[i].caption.None?
      {
        assert d.medias[i] == d.medias[1..][i - 1] == items[i];
      }
    }
  }

  /** An exception from the first transport call is reported to the private chat, and nothing else is sent. */
  lemma TransportFailureReported(cfg: Config, s: Status, markdownify: string -> string, detail: string,
                                 describe: Fault -> string)
    requires var d := DecideToTelegram(cfg, s, markdownify); d.SendGroup? || d.SendText?
    ensures SendMessageToTelegram(cfg, s, markdownify, FailsAt(0, detail), describe) ==
      [SendMessage(cfg.pmChatId, "```" + describe(TransportError(detail)) + "```", true, false)]
  {
  }
}
