# mastodon-telegram-bridge: the decision and text layer

This project models the part of mastodon-telegram-bridge that decides what
to relay between a Telegram channel and a Mastodon account, and how it
builds the outgoing text. It covers:

- the tag filter for Telegram → Mastodon (`MastodonFilter`);
- the scope filter for Mastodon → Telegram (`TelegramFilter`) and the
  example `ReblogFilter`;
- the two footer builders;
- the converter's option defaults and its Markdown `escape`, in both the
  package and the earlier root version;
- the self-post test and both handlers of the current `Bridge`;
- the same handlers in the earlier root script `main.py`, which follows
  different rules;
- the default option values.

Each handler is a function from the configuration and the inbound record
to a `Decision`:

- `Reject(reply)`
- `Skip(reason)`
- `PostMastodon(status, media)`
- `SendGroup(chat, medias)`
- `SendText(chat, text)`
- `Fail(fault)`, for an exception raised before any transport call

`Relay.Perform` turns a decision into the ordered list of transport calls it
makes. A `Transport` parameter says whether every call succeeds
(`Delivered`) or which one raises first (`FailsAt(index, detail)`). A
failing call ends the list with the handler's report to the private chat,
which is what the `except` branches do. The call that raised is not in the
list: the report takes its place. A failure of the report call itself
cannot be represented.

Three library behaviours are parameters of the model:

- the HTML-to-Markdown conversion (`markdownify`);
- the exception renderer (`format_exception`, and `str(e)` in `main.py`);
- the outcome of each transport call.

Modules, one per source file, plus shared value types:

- `Wrappers`: Option and Result.
- `Strings`: Python's `in`, `join`, `split`, `str(int)`, `s[k:]`, truthiness and `None` in f-strings.
- `Records`: the Telegram message and Mastodon status fields that are read.
- `Markdown`: the converter's option defaults and `escape` (`mastodon_telegram_bridge/utils.py`).
- `LegacyMarkdown`: the root `utils.py` converter.
- `Filters`: `mastodon_telegram_bridge/filter.py`.
- `CustomFilter`: `examples/custom_filter.py`.
- `Footers`: `mastodon_telegram_bridge/footer.py`. Both `make_footer` methods are imperative methods proved against a line-list function.
- `Relay`: the configuration, the decisions, the transport calls and the Telegram media list. The media list is built by a loop method proved against a function.
- `Bridge`: `mastodon_telegram_bridge/bridge.py`.
- `LegacyMain`: `main.py`.
- `Types`: `mastodon_telegram_bridge/types.py`. Its default values are the constants `DefaultMastodonToTelegram` and `DefaultTelegramToMastodon`:
  - Mastodon → Telegram: `disable` false, chat ids 0, `forward_reblog_link_only` true, scope public/unlisted, footer link on, tags `#mastodon`.
  - Telegram → Mastodon: `disable` false, chat ids 0, include nothing, exclude `#nofwd`, `#noforward` and `#mastodon`, footer link off, forward info on.
  - `MediaGroup` is a datatype pairing a sequence of messages with one footer string.

Where this model departs from a plain reading of the code:

- The current bridge posts through `self.mastondon` (bridge.py:64, 74, 95). Only `self.mastodon` exists (bridge.py:15), so every post would raise AttributeError. The model gives these sites the post the code evidently intends.
- The legacy script uses the module-level name `mastondon` consistently, so it has no such problem.
- The legacy handlers pass `None` along where the code does, with these outcomes:
  - a message with no photo, video or text raises on `tag in None` when tags are configured;
  - otherwise it raises on `None +=` when a forward or link line is due;
  - otherwise it posts `None`;
  - a status of the bridge's own account with no application raises on `.name`; the username is compared first, so a foreign status is never asked for its application (main.py:112-113).
  These outcomes appear as `Fail` decisions or `None` statuses.
- `main.py` converts status content with the markdownify library's own `markdownify` (main.py:8, 120), while the current bridge uses the package's `TelegramMarkdownConverter` (mastodon_telegram_bridge/bridge.py:9, mastodon_telegram_bridge/utils.py:42-51). Both are parameters, and the two handlers are compared only where the two converters agree on the content.

## Model

| member | source | states |
|---|---|---|
| Strings.ContainsIff | mastodon_telegram_bridge/filter.py:85 | `tag in text` holds iff the tag occurs in the text at some position |
| Strings.DropPrefix | mastodon_telegram_bridge/bridge.py:84 | `s[k:]` keeps the characters from index k on, in order, and is empty when s is shorter than k |
| Strings.IntToString | mastodon_telegram_bridge/bridge.py:84 | `str(n)` starts with `-` exactly when n is negative; what follows is decimal digits with no leading zero, reading back as the absolute value of n |
| Strings.DecimalRoundTrip | mastodon_telegram_bridge/bridge.py:84 | the decimal digits `str` writes for a non-negative number read back as the number |
| Strings.OrEmpty | mastodon_telegram_bridge/bridge.py:56 | `caption or ''` is the caption when it is non-empty and `''` otherwise |
| Strings.Format | main.py:103 | an f-string renders a missing text as `None` and a present one as itself |
| Strings.FormatInt | mastodon_telegram_bridge/footer.py:59 | an f-string renders a missing number as `None` and a present one as `str(n)` |
| Markdown.Escape | mastodon_telegram_bridge/utils.py:20-39 | `escape` gives `''` for `None` or `''`, and otherwise never shortens the text |
| Markdown.TelegramDefaults | mastodon_telegram_bridge/utils.py:10-18 | the converter turns autolinks off and the bracket and backquote escapes on, and inherits the other two escapes |
| Markdown.EscapeEmpty | mastodon_telegram_bridge/utils.py:29-30 | `None` and `''` both escape to `''` |
| Markdown.ReplaceCharAbsent | mastodon_telegram_bridge/utils.py:32 | `replace` leaves a text without the pattern character unchanged |
| Markdown.ReplacementsConcat | mastodon_telegram_bridge/utils.py:31-38 | the four-replace chain distributes over concatenation |
| Markdown.ReplacementsSingle | mastodon_telegram_bridge/utils.py:31-38 | on one character the chain gives that character's escape, because the inserted backslash is never a later target |
| Markdown.EscapeIsPerCharacter | mastodon_telegram_bridge/utils.py:31-39 | the sequential replaces equal the per-character escape: each character in order, untouched characters (backslashes included) copied |
| Markdown.EscapeEachLength | mastodon_telegram_bridge/utils.py:31-38 | the per-character escape is longer than its input by the number of enabled targets |
| Markdown.EscapeLength | mastodon_telegram_bridge/utils.py:31-38 | output length = input length + number of enabled targets in the input |
| Markdown.EscapeEachKeepsTargets | mastodon_telegram_bridge/utils.py:31-38 | escaping keeps the number of enabled targets (only backslashes are added) |
| Markdown.EscapeTwice | mastodon_telegram_bridge/utils.py:31-38 | escaping again adds one more backslash per target, so `escape` is not idempotent on any text holding an enabled target |
| Markdown.UnescapeEscapeEach | mastodon_telegram_bridge/utils.py:31-38 | with all four escapes on, deleting each backslash before a metacharacter undoes the per-character escape |
| Markdown.EscapeRoundTrip | mastodon_telegram_bridge/utils.py:31-39 | with all four escapes on, that deletion recovers the input of `escape` exactly |
| LegacyMarkdown.ConstructorOptions | utils.py:5-9 | whatever the caller passes, brackets and backquotes are escaped; the other options pass through |
| LegacyMarkdown.LegacyEscape | utils.py:11-22 | the legacy `escape` gives `''` on empty or `None` input, is the per-character escape otherwise, and grows by the count of enabled targets |
| LegacyMarkdown.SameAsPackage | utils.py:11-22 | for options that already escape brackets and backquotes, the legacy output equals the package's |
| LegacyMarkdown.OverrideObservable | utils.py:7-8 | when the caller disabled escaping a bracket or backquote present in the text, the legacy output is longer than the package's |
| Filters.AnyContained | mastodon_telegram_bridge/filter.py:85 | `any(tag in text for tag in tags)` holds iff some listed tag occurs in the text |
| Filters.FirstOverlap | mastodon_telegram_bridge/filter.py:76-78 | finds nothing iff no include tag is excluded; otherwise it finds the first include tag that is |
| Filters.NewMastodonFilter | mastodon_telegram_bridge/filter.py:76-82 | construction succeeds iff the lists are disjoint and all tags start with `#`. Overlap is reported first and names a tag in both lists, then a bad include tag, then a bad exclude tag |
| Filters.Accepts | mastodon_telegram_bridge/filter.py:84-88 | an exclude tag in the text rejects it; with an include list, a text holding none of its tags is rejected; with no include list, the text passes iff it holds no exclude tag |
| Filters.AcceptsIff | mastodon_telegram_bridge/filter.py:84-88 | a text passes iff no exclude tag occurs in it and, with a non-empty include list, some include tag does |
| Filters.SubstringMatch | mastodon_telegram_bridge/filter.py:85 | exclude tag `#mastodon` rejects `#mastodonx`: matching is by substring |
| Filters.EmptyFilterAcceptsAll | mastodon_telegram_bridge/filter.py:85-88 | with both lists empty every text passes |
| Filters.ExcludeMoreRejectsMore | mastodon_telegram_bridge/filter.py:85-88 | adding exclude tags never lets a rejected text through |
| Filters.AnyUnknownScope | mastodon_telegram_bridge/filter.py:98 | holds iff some scope entry is not public, unlisted, private or direct |
| Filters.NewTelegramFilter | mastodon_telegram_bridge/filter.py:97-99 | construction fails iff the scope is non-empty and has an unknown entry |
| Filters.TelegramAccepts | mastodon_telegram_bridge/filter.py:101-103 | a status passes iff it answers nothing and its visibility is one of the scope entries |
| Filters.EmptyScope | mastodon_telegram_bridge/filter.py:97-103 | an empty scope passes construction and then accepts no status |
| CustomFilter.ReblogAccepts | examples/custom_filter.py:17-23 | each early return rejects: visibility out of scope, a reblog whose visibility is out of the reblogged scope, a reply |
| CustomFilter.ReblogAcceptsIff | examples/custom_filter.py:17-23 | a status passes iff its visibility is in scope, a reblogged status's visibility is in the reblogged scope, and it is not a reply |
| CustomFilter.AgreesOnPlainStatus | examples/custom_filter.py:17-23 | for a status that is not a reblog the decision is `TelegramFilter`'s over the same scope |
| CustomFilter.NarrowsBuiltIn | examples/custom_filter.py:17-23 | it never accepts a status the built-in scope filter rejects |
| Footers.Render | mastodon_telegram_bridge/footer.py:35-37 | `'\n'.join(lines)`: nothing for no lines, the line itself for one, otherwise the first line, a newline and the rest joined the same way |
| Footers.RenderEmpty | mastodon_telegram_bridge/footer.py:35-37 | no lines render as `''` |
| Footers.RenderSplitsBack | mastodon_telegram_bridge/footer.py:35-37 | lines without newlines are recovered by splitting the rendered footer on `\n` |
| Footers.RenderContainsLine | mastodon_telegram_bridge/footer.py:35-37 | every line occurs in the rendered footer |
| Footers.ForwardName | mastodon_telegram_bridge/footer.py:48-55 | the user's `name`, else the chat's title, else a non-empty sender name, else nothing |
| Footers.ForwardLink | mastodon_telegram_bridge/footer.py:57-60 | present iff the forwarding chat exists with a non-empty link, and then `{link}/{forward_from_message_id}` |
| Footers.MakeMastodonFooter | mastodon_telegram_bridge/footer.py:62-79 | the lines are forward name, forward link, message link, each only when due: at most 3, the name line first and the message link last; with `show_forward_from` off only the link can appear |
| Footers.ForwardedLinePriority | mastodon_telegram_bridge/footer.py:48-55 | which source the `Forwarded from` line takes its name from, case by case, and that it is absent when no name exists |
| Footers.MakeTelegramFooter | mastodon_telegram_bridge/footer.py:90-104 | the url line iff `add_link`, then one line of tags joined by single spaces iff there are tags; at most 2 lines, the url first |
| Footers.TelegramFooterHoldsTags | mastodon_telegram_bridge/footer.py:102-103 | every configured tag occurs in the rendered Telegram footer |
| Relay.PlannedCalls | mastodon_telegram_bridge/bridge.py:95-98 | a post (after its upload, if it has media) is a public `status_post` followed by the success note; a group or text send is a single call |
| Relay.Execute | mastodon_telegram_bridge/bridge.py:99-102 | never more calls than planned; every call but the last is the planned one at its place; if the result differs from the plan, a call raised and the report is the last call |
| Relay.Perform | mastodon_telegram_bridge/bridge.py:99-102 | a skip makes no call, a rejection only its reply, a raise before any call only the report; a group or text send is exactly one call, and no decision makes more than three |
| Relay.CallsStayPrivate | mastodon_telegram_bridge/bridge.py:95-102 | a decision that is not a Telegram send, with a report to the private chat, makes no group send, and every `send_message` call goes to the private chat. `ReplyText` has no chat field: it answers in the post's own chat |
| Relay.ExecuteIsolatesFailure | mastodon_telegram_bridge/bridge.py:99-102 | either every call is made, or the calls before the failing one are made and one report follows, as the last call |
| Relay.PerformQuiet | mastodon_telegram_bridge/bridge.py:38-43 | a skip makes no call and a rejection makes only its reply |
| Relay.PostOnlyWhenForwarding | mastodon_telegram_bridge/bridge.py:95-96 | a Mastodon post is only ever made for a forwarding decision |
| Relay.Captioned | mastodon_telegram_bridge/bridge.py:125 | `medias[0].caption = txt` raises IndexError iff the list is empty, and otherwise captions exactly the first entry |
| Relay.MediaItemsConcat | mastodon_telegram_bridge/bridge.py:117-124 | the media list keeps attachment order |
| Relay.MediaItemsShape | mastodon_telegram_bridge/bridge.py:117-124 | one uncaptioned entry per image or video attachment, each taken from an attachment |
| Relay.BuildMediaGroup | mastodon_telegram_bridge/bridge.py:116-125 | the append loop and caption step give the order-preserving media list with the text on its first entry, or IndexError |
| Bridge.ShouldForwardIsAuthorAndFilter | mastodon_telegram_bridge/bridge.py:29-34 | a status is forwarded iff it is the bridge account's, not posted by the bridge's app, not a reply, and its visibility is in scope |
| Bridge.ShouldForwardToTelegram | mastodon_telegram_bridge/bridge.py:29-34 | a forwarded status is the bridge account's, not from the bridge's application, not a reply, and in scope |
| Bridge.OwnPostsNotReflected | mastodon_telegram_bridge/bridge.py:29-34 | the bridge's own posts are never sent back, and a status with no application counts as foreign |
| Bridge.ChannelLinkDropsPrefix | mastodon_telegram_bridge/bridge.py:92-94 | for every chat id written `-100` then d, the link is `from: https://t.me/c/` + d + `/` + the message id: `str(chat_id)[4:]` removes exactly the `-100` |
| Bridge.ChannelLinkExample | mastodon_telegram_bridge/bridge.py:92-94 | the chat id -10012 with message 7 gives `from: https://t.me/c/12/7` |
| Bridge.DecideToMastodon | mastodon_telegram_bridge/bridge.py:36-94 | a rejection, with the fixed reply, iff the post is from another chat; otherwise a skip or a post, never an exception before a call; a post always has text, and media exactly for a photo (its last size) or a video |
| Bridge.SendMessageToMastodon | mastodon_telegram_bridge/bridge.py:36-102 | at most three calls, none a Telegram group send; every `send_message` call goes to the private chat. `ReplyText` has no chat field: it answers in the post's own chat |
| Bridge.WrongChannelOnlyReplies | mastodon_telegram_bridge/bridge.py:36-43 | a post from another chat gets only the fixed reply; nothing is posted and nothing reported |
| Bridge.SkippedPostsMakeNoCall | mastodon_telegram_bridge/bridge.py:51-88 | media-group photos, posts with no photo, video or text, and posts carrying a no-forward tag make no call |
| Bridge.MediaPostAssembly | mastodon_telegram_bridge/bridge.py:51-98 | photo and video text is caption-or-empty, then the forward line iff `show_forward_info` and a name, then the link iff `add_link_in_mastodon`; then upload, public post, success note |
| Bridge.TextPostAssembly | mastodon_telegram_bridge/bridge.py:75-94 | a text post gets `Forwarded from telegram:` whenever a name exists and the link, then both common lines again |
| Bridge.TextPostLinkTwice | mastodon_telegram_bridge/bridge.py:83-94 | with `add_link_in_mastodon` the channel link occurs twice, at separate places, in a text post |
| Bridge.ForwardStatus | mastodon_telegram_bridge/bridge.py:112-133 | a text send to the channel iff there are no attachments, carrying the converted text and link; otherwise a non-empty group send to the channel or the IndexError |
| Bridge.DecideToTelegram | mastodon_telegram_bridge/bridge.py:104-133 | skipped iff the forwarding test fails; otherwise what `ForwardStatus` gives for the reblogged status, or for the status itself when it is not a reblog |
| Bridge.SendMessageToTelegram | mastodon_telegram_bridge/bridge.py:104-137 | at most one call per status: a group or text send to the channel, or a report to the private chat |
| Bridge.ReblogUnwrapped | mastodon_telegram_bridge/bridge.py:106-114 | a forwarded reblog is sent as the reblogged status would be: its converted content and url (alone, when it has no attachments) and its attachments; the outer content, url and attachments and the inner visibility and reply target change nothing |
| Bridge.NotForwardedMakesNoCall | mastodon_telegram_bridge/bridge.py:104-106 | a status failing the test makes no call |
| Bridge.ForwardStatusSends | mastodon_telegram_bridge/bridge.py:112-137 | without attachments the text goes alone to the channel; with image or video attachments one entry each goes in order, the first being the first media item with the text as caption and the rest uncaptioned; with neither kind the IndexError is reported in a code block |
| Bridge.TransportFailureReported | mastodon_telegram_bridge/bridge.py:127-137 | a send that raises leads to the report alone, to the private chat |
| LegacyMain.PickMessage | main.py:36 | the channel post when there is one, else the message |
| LegacyMain.ForwardName | main.py:46-52 | the user's `full_name`, else the chat's title, else a non-empty sender name |
| LegacyMain.DecideToMastodon | main.py:35-101 | a rejection, with the fixed reply, iff the message is from another chat; an exception only for a message with no photo, video or text, and a `None` status only for such a message |
| LegacyMain.SendMessageToMastodon | main.py:35-106 | no call without a message; at most three calls, none a group send; every `send_message` call goes to the private chat. `ReplyText` has no chat field: it answers in the message's own chat |
| LegacyMain.WrongChannelOnlyReplies | main.py:35-42 | a message from another chat gets only the fixed reply |
| LegacyMain.MediaPostRules | main.py:54-89 | photo and video captions are skipped iff they hold the literal `#noforward`. Photos get the forward line iff `show_forward_info` and a name; videos never do; both get the link iff `add_link_in_mastodon` |
| LegacyMain.LegacyMediaGroupSkipped | main.py:55-57 | a photo with a media group id is skipped |
| LegacyMain.LegacyTextPostRules | main.py:90-101 | a text post is skipped iff a configured tag occurs in it; otherwise it is the text, then the forward line iff `show_forward_info` and a name, then the link line iff `add_link_in_mastodon` |
| LegacyMain.MissingTextRaises | main.py:90-106 | a message with no photo, video or text is reported as an exception when tags are configured; with no tags and no lines due it posts `None` |
| LegacyMain.NoForwardOnly | main.py:92 | a tag list of just `#noforward` screens exactly as the literal test on captions does |
| LegacyMain.AgreesWithBridgeOnPhoto | main.py:54-74 | with no forwarding user and tags `#noforward`, a photo is decided as the current bridge decides it |
| LegacyMain.AgreesWithBridgeOnText | main.py:90-101 | for any configured tags, a text post with no forward name and no link line is decided as the current bridge decides it |
| LegacyMain.IsValid | main.py:110-115 | foreign statuses are not valid; a status of the bridge's account with no application raises; otherwise it is the current bridge's test |
| LegacyMain.DecideToTelegram | main.py:109-140 | skipped iff the status is not valid; the `.name` exception iff `is_valid` raises; a valid status is sent or hits the IndexError |
| LegacyMain.SendMessageToTelegram | main.py:109-143 | at most one call per status: a group or text send to the channel, or a report to the private chat |
| LegacyMain.MissingApplicationReported | main.py:110-143 | such a status leads only to an `Exception: …` report to the private chat |
| LegacyMain.NoReblogUnwrapping | main.py:118-135 | a valid status is sent with its own content, url and attachments, reblog or not |
| LegacyMain.AgreesWithBridgeOnPlainStatus | main.py:109-140 | for statuses with an application that are not reblogs, the legacy decision is the current one whenever the library's converter and the package's converter give the same text for the content |
| Types.DefaultScopeValid | mastodon_telegram_bridge/types.py:97-99 | the default scope passes validation and admits exactly public and unlisted statuses that are not replies |
| Types.DefaultTagsValid | mastodon_telegram_bridge/types.py:112-115 | the default include and exclude lists pass `MastodonFilter` validation |
| Types.DefaultTelegramFooter | mastodon_telegram_bridge/types.py:100-103 | the default Telegram footer is the status url, then the line `#mastodon` |
| Types.DefaultMastodonFooter | mastodon_telegram_bridge/types.py:116-119 | the default Mastodon footer holds the forward lines but never the message link |
| Types.DefaultFooterNotReflected | mastodon_telegram_bridge/types.py:100-115 | any text carrying the default Telegram footer is rejected by the default Telegram → Mastodon filter |

## Left out

- Transport calls (media upload, status post, message and media-group sends, `reply_text`): their effects are `Call` values and their failures are the `Transport` parameter.
- File download and the temporary directories: not modelled. A failing download shows up only as a failure of the first call, `FailsAt(0, …)`.
- `reply_text` for a foreign chat sits outside the `try`: a failure there is not modelled.
- The AttributeError from the `self.mastondon` typo in the current bridge: the intended post is modelled instead.
- The HTML-to-Markdown conversion (`markdownify`) and the exception rendering (`format_exception`, `str(e)`): both are function parameters.
- The Mastodon stream and Telegram polling loops, the `start` and `error` handlers, the dispatcher, and the command-line entry: these are concurrency and I/O.
- The module-level configuration loading and client set-up in `main.py`: also I/O. The configuration is the `Config` parameter.
- The runtime type checks in `MastodonFilter.__check_tags` (iterable, strings): Dafny's types enforce them.
- `mastodon_telegram_bridge/typing.py` and `mastodon_telegram_bridge/__init__.py`: declarations and re-exports only.
- Media-group aggregation, the 4-attachment limit, spoiler text, the `forward_reblog_link_only` behaviour and the check for both directions disabled: bridge.py and main.py do none of these. Only the `MediaGroup` shape and the option default exist.
- Logging: it does not affect any decision.
- LegacyMain.AgreesWithBridgeOnPlainStatus: the markdownify library's conversion and the package's converter are both parameters, so where they differ (autolinks, `[` and `` ` `` escaping) the model states nothing about the two handlers' texts.
- The missing `Any` import in `examples/custom_filter.py`: only the predicate is modelled.
- LegacyMain.SendMessageToMastodon: an update with neither a channel post nor a message raises before the `try` and is only logged by the dispatcher. It is modelled as making no call.
- LegacyMarkdown.ConstructorOptions: the write into the constructor's own keyword dictionary (a fresh dict, so the caller's options are untouched) is modelled as a function on option values. The library's own option merging is not part of this model.
- Footers.MakeMastodonFooter and Footers.MakeTelegramFooter: these methods change no state. That `make_footer` mutates neither the configuration nor the message follows from value semantics, and that the same input gives the same lines follows from determinism. Neither has a lemma of its own.
- Message links from Telegram (`message.link`) are taken as given fields; how Telegram builds them is not part of this model.
