/**
 * What the two relay handlers share: the configuration they read, the
 * decision a handler takes for one inbound item, the transport calls that
 * decision turns into, and how an exception raised on the way is reported
 * to the administrator's private chat instead of ending the listen loop.
 *
 * Transports are not modelled; a `Transport` value says whether every call
 * succeeds or which call raises first, and how an exception is rendered
 * (`format_exception(e)` or `str(e)`) is a parameter.
 */
module Relay {
  import opened Wrappers
  import opened Strings
  import opened Records

  /** The flat configuration object the handlers read. */
  datatype Config = Config(
    mastodonUsername: string,
    mastodonAppName: string,
    scope: seq<string>,
    channelChatId: int,
    pmChatId: int,
    noforwardTags: seq<string>,
    addLinkInMastodon: bool,
    showForwardInfo: bool,
    addLinkInTelegram: bool)

  datatype MediaKind = PhotoMedia | VideoMedia

  /** `InputMediaPhoto(url, parse_mode=Markdown)` or `InputMediaVideo(...)`, with its caption. */
  datatype InputMedia = InputMedia(kind: MediaKind, media: string, caption: Option<string>)

  /** The exceptions a handler can raise. */
  datatype Fault =
    | TransportError(detail: string)   // raised by a client call
    | IndexError                       // `medias[0]` on an empty media list
    | NoneAttribute(attribute: string) // attribute access on `None`
    | NoneNotIterable                  // `tag in None`
    | NoneConcat                       // `None += str`

  datatype SkipReason = NotForwardable | MediaGroup | NoForwardTag | Unsupported

  /**
   * The decision for one inbound item. `PostMastodon.status` is `None` only
   * where the legacy handler passes `None` to `status_post`; `media` names
   * the file to upload first.
   */
  datatype Decision =
    | Reject(reply: string)
    | Skip(reason: SkipReason)
    | PostMastodon(status: Option<string>, media: Option<string>)
    | SendGroup(chat: int, medias: seq<InputMedia>)
    | SendText(chat: int, text: string)
    | Fail(fault: Fault)

  /** One call into a transport. */
  datatype Call =
    | ReplyText(text: string)
    | UploadMedia(file: string)
    | PostStatus(status: Option<string>, visibility: string, withMedia: bool)
    | SendMessage(chat: int, text: string, markdown: bool, disablePreview: bool)
    | SendMediaGroup(chat: int, medias: seq<InputMedia>)

  /** Whether all transport calls of an item succeed, or which one raises first. */
  datatype Transport = Delivered | FailsAt(index: nat, detail: string)

  const WrongChannelReply: string := "This bot is only for specific channel."

  const SuccessNote: string := "Successfully forward message to mastodon.\n"

  /** The calls a forwarding decision makes, in order, when none of them raises. */
  function PlannedCalls(cfg: Config, d: Decision): (calls: seq<Call>)
    ensures d.PostMastodon? ==> |calls| >= 2 && calls[|calls| - 2] == PostStatus(d.status, "public", d.media.Some?)
    ensures d.PostMastodon? ==> calls[|calls| - 1] == SendMessage(cfg.pmChatId, SuccessNote + Format(d.status), false, false)
    ensures d.PostMastodon? && d.media.Some? ==> |calls| == 3 && calls[0] == UploadMedia(d.media.value)
    ensures d.PostMastodon? && d.media.None? ==> |calls| == 2
    ensures d.SendGroup? ==> calls == [SendMediaGroup(d.chat, d.medias)]
    ensures d.SendText? ==> calls == [SendMessage(d.chat, d.text, true, true)]
    ensures !(d.PostMastodon? || d.SendGroup? || d.SendText?) ==> calls == []
  {
    match d
    case PostMastodon(status, media) =>
      (if media.Some? then [UploadMedia(media.value)] else []) +
      [PostStatus(status, "public", media.Some?),
       SendMessage(cfg.pmChatId, SuccessNote + Format(status), false, false)]
    case SendGroup(chat, medias) => [SendMediaGroup(chat, medias)]
    case SendText(chat, text) => [SendMessage(chat, text, true, true)]
    case _ => []
  }

  /**
   * Run planned calls against the transport: calls before the failing one
   * happen, the failing one raises, and the handler's `except` sends the
   * report instead of the rest.
   */
  function Execute(calls: seq<Call>, t: Transport, report: Fault -> Call): (out: seq<Call>)
    ensures |out| <= |calls|
    ensures forall i :: 0 <= i < |out| - 1 ==> out[i] == calls[i]
    ensures out != calls ==> t.FailsAt? && |out| > 0 && out[|out| - 1] == report(TransportError(t.detail))
    ensures t.Delivered? ==> out == calls
  {
    if t.FailsAt? && t.index < |calls| then calls[..t.index] + [report(TransportError(t.detail))]
    else calls
  }

  /** The calls a handler makes for a decision. */
  function Perform(cfg: Config, d: Decision, t: Transport, report: Fault -> Call): (calls: seq<Call>)
    ensures d.Skip? ==> calls == []
    ensures d.Reject? ==> calls == [ReplyText(d.reply)]
    ensures d.Fail? ==> calls == [report(d.fault)]
    ensures |calls| <= 3
    ensures (d.SendGroup? || d.SendText?) ==> |calls| == 1
  {
    match d
    case Reject(reply) => [ReplyText(reply)]
    case Skip(_) => []
    case Fail(fault) => [report(fault)]
    case _ => Execute(PlannedCalls(cfg, d), t, report)
  }

  /**
   * Failures stay inside the item: either every planned call is made, or a
   * prefix of them is followed by exactly one report, which is the last call.
   */
  lemma ExecuteIsolatesFailure(calls: seq<Call>, t: Transport, report: Fault -> Call)
    ensures t.Delivered? ==> Execute(calls, t, report) == calls
    ensures t.FailsAt? && t.index >= |calls| ==> Execute(calls, t, report) == calls
    ensures t.FailsAt? && t.index < |calls| ==>
      var out := Execute(calls, t, report);
      |out| == t.index + 1 && out[..t.index] == calls[..t.index] &&
      out[t.index] == report(TransportError(t.detail))
  {
  }

  /**
   * A handler that never sends to Telegram on its own decision keeps every
   * Telegram message in the private chat, when its report goes there too.
   */
  lemma CallsStayPrivate(cfg: Config, d: Decision, t: Transport, report: Fault -> Call)
    requires d.Reject? || d.Skip? || d.PostMastodon? || d.Fail?
    requires forall f :: report(f).SendMessage? && report(f).chat == cfg.pmChatId
    ensures var calls := Perform(cfg, d, t, report);
      && (forall i :: 0 <= i < |calls| ==> !calls[i].SendMediaGroup?)
      && (forall i :: 0 <= i < |calls| && calls[i].SendMessage? ==> calls[i].chat == cfg.pmChatId)
  {
    var calls := Perform(cfg, d, t, report);
    if d.PostMastodon? {
      var planned := PlannedCalls(cfg, d);
      forall i | 0 <= i < |calls|
        ensures !calls[i].SendMediaGroup? && (calls[i].SendMessage? ==> calls[i].chat == cfg.pmChatId)
      {
        if i < |calls| - 1 || calls == planned {
          assert calls[i] == planned[i];
        } else {
          assert calls[i] == report(TransportError(t.detail));
        }
      }
    }
  }

  /** A skipped item makes no call at all; a rejected one only replies. */
  lemma PerformQuiet(cfg: Config, d: Decision, t: Transport, report: Fault -> Call)
    ensures d.Skip? ==> Perform(cfg, d, t, report) == []
    ensures d.Reject? ==> Perform(cfg, d, t, report) == [ReplyText(d.reply)]
  {
  }

  /** A post reaches Mastodon only through a forwarding decision. */
  lemma PostOnlyWhenForwarding(cfg: Config, d: Decision, t: Transport, report: Fault -> Call, k: nat)
    requires forall f :: !report(f).PostStatus?
    requires k < |Perform(cfg, d, t, report)| && Perform(cfg, d, t, report)[k].PostStatus?
    ensures d.PostMastodon?
  {
  }

  // ---------------------------------------------------------------------
  // The Telegram media list (one entry per image or video attachment).

  /** The media entry an attachment gives, if it is an image or a video. */
  function MediaOf(a: Attachment): Option<InputMedia>
  {
    if a.kind == "image" then Some(InputMedia(PhotoMedia, a.url, None))
    else if a.kind == "video" then Some(InputMedia(VideoMedia, a.url, None))
    else None
  }

  /** The uncaptioned entries for `atts`, in order; other attachment types are dropped. */
  function MediaItems(atts: seq<Attachment>): seq<InputMedia>
    decreases |atts|
  {
    if |atts| == 0 then []
    else (if MediaOf(atts[0]).Some? then [MediaOf(atts[0]).value] else []) + MediaItems(atts[1..])
  }

  /** `medias[0].caption = txt`, which raises `IndexError` on an empty list. */
  function Captioned(items: seq<InputMedia>, caption: string): (r: Result<seq<InputMedia>, Fault>)
    ensures r.Err? <==> |items| == 0
    ensures r.Err? ==> r.error == IndexError
    ensures r.Ok? ==> |r.value| == |items| && r.value[0] == items[0].(caption := Some(caption))
    ensures r.Ok? ==> r.value[1..] == items[1..]
  {
    if |items| == 0 then Err(IndexError) else Ok([items[0].(caption := Some(caption))] + items[1..])
  }

  /** The number of image and video attachments. */
  function CountMedia(atts: seq<Attachment>): nat
    decreases |atts|
  {
    if |atts| == 0 then 0 else (if MediaOf(atts[0]).Some? then 1 else 0) + CountMedia(atts[1..])
  }

  /** The media list maps concatenation to concatenation: it keeps attachment order. */
  lemma {:induction false} MediaItemsConcat(a: seq<Attachment>, b: seq<Attachment>)
    ensures MediaItems(a + b) == MediaItems(a) + MediaItems(b)
    decreases |a|
  {
    if |a| == 0 {
      assert a + b == b;
    } else {
      var head := if MediaOf(a[0]).Some? then [MediaOf(a[0]).value] else [];
      assert (a + b)[0] == a[0];
      assert (a + b)[1..] == a[1..] + b;
      assert MediaItems(a + b) == head + MediaItems(a[1..] + b);
      assert MediaItems(a) == head + MediaItems(a[1..]);
      MediaItemsConcat(a[1..], b);
      assert head + (MediaItems(a[1..]) + MediaItems(b)) == (head + MediaItems(a[1..])) + MediaItems(b);
    }
  }

  /** One entry per image or video, none of them captioned yet, each from its attachment's URL. */
  lemma {:induction false} MediaItemsShape(atts: seq<Attachment>)
    ensures |MediaItems(atts)| == CountMedia(atts)
    ensures forall i :: 0 <= i < |MediaItems(atts)| ==> MediaItems(atts)[i].caption.None?
    ensures forall i :: 0 <= i < |MediaItems(atts)| ==>
      exists j :: 0 <= j < |atts| && MediaOf(atts[j]) == Some(MediaItems(atts)[i])
    decreases |atts|
  {
    if |atts| > 0 {
      MediaItemsShape(atts[1..]);
      var head := if MediaOf(atts[0]).Some? then [MediaOf(atts[0]).value] else [];
      var items := MediaItems(atts);
      assert items == head + MediaItems(atts[1..]);
      forall i | 0 <= i < |items|
        ensures exists j :: 0 <= j < |atts| && MediaOf(atts[j]) == Some(items[i])
      {
        if i < |head| {
          assert MediaOf(atts[0]) == Some(items[i]);
        } else {
          var j :| 0 <= j < |atts[1..]| && MediaOf(atts[1..][j]) == Some(MediaItems(atts[1..])[i - |head|]);
          assert MediaOf(atts[j + 1]) == Some(items[i]);
        }
      }
    }
  }

  /**
   * The loop that fills `medias` and then captions its first entry. It raises
   * `IndexError` when no attachment is an image or a video.
   */
  method BuildMediaGroup(atts: seq<Attachment>, txt: string) returns (r: Result<seq<InputMedia>, Fault>)
    ensures r == Captioned(MediaItems(atts), txt)
  {
    var medias: seq<InputMedia> := [];
    var i := 0;
    while i < |atts|
      invariant 0 <= i <= |atts|
      invariant medias == MediaItems(atts[..i])
    {
      var item := atts[i];
      if item.kind == "image" {
        medias := medias + [InputMedia(PhotoMedia, item.url, None)];
      } else if item.kind == "video" {
        medias := medias + [InputMedia(VideoMedia, item.url, None)];
      }
      assert atts[..i + 1] == atts[..i] + [item];
      MediaItemsConcat(atts[..i], [item]);
      assert MediaItems([item]) == (if MediaOf(item).Some? then [MediaOf(item).value] else []);
      i := i + 1;
    }
    assert atts[..i] == atts;
    if |medias| == 0 {
      r := Err(IndexError);
    } else {
      medias := medias[0 := medias[0].(caption := Some(txt))];
      assert medias == [medias[0]] + medias[1..];
      r := Ok(medias);
    }
  }
}
