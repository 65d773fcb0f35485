/** The example replacement filter for the Mastodon -> Telegram direction that also screens reblogs. */
module CustomFilter {
  import opened Wrappers
  import opened Records
  import opened Filters

  datatype ReblogFilter = ReblogFilter(scope: seq<string>, rebloggedScope: seq<string>)

  /** `ReblogFilter.__call__(status)`, with its early returns. */
  predicate ReblogAccepts(f: ReblogFilter, s: Status)
    ensures s.visibility !in f.scope ==> !ReblogAccepts(f, s)
    ensures s.reblog.Some? && s.reblog.value.visibility !in f.rebloggedScope ==> !ReblogAccepts(f, s)
    ensures s.inReplyToId.Some? ==> !ReblogAccepts(f, s)
  {
    if s.visibility !in f.scope then false
    else if s.reblog.Some? && s.reblog.value.visibility !in f.rebloggedScope then false
    else s.inReplyToId.None? && s.visibility in f.scope
  }

  /**
   * A status passes iff its visibility is in scope, a reblogged status's
   * visibility is in the reblogged scope, and it is not a reply.
   */
  lemma ReblogAcceptsIff(f: ReblogFilter, s: Status)
    ensures ReblogAccepts(f, s) <==>
      s.visibility in f.scope &&
      (s.reblog.Some? ==> s.reblog.value.visibility in f.rebloggedScope) &&
      s.inReplyToId.None?
  {
  }

  /** On a status that is not a reblog the decision is the built-in filter's. */
  lemma AgreesOnPlainStatus(f: ReblogFilter, s: Status)
    requires s.reblog.None?
    ensures ReblogAccepts(f, s) == TelegramAccepts(TelegramFilter(f.scope), s)
  {
  }

  /** It is never more permissive than the built-in filter with the same scope. */
  lemma NarrowsBuiltIn(f: ReblogFilter, s: Status)
    ensures ReblogAccepts(f, s) ==> TelegramAccepts(TelegramFilter(f.scope), s)
  {
  }
}
