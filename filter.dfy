/**
 * The two built-in filters. Their names are those of the destination:
 * `MastodonFilter` decides what crosses from Telegram to Mastodon (a tag
 * test on the text), `TelegramFilter` what crosses from Mastodon to
 * Telegram (visibility and reply status).
 */
module Filters {
  import opened Wrappers
  import opened Strings
  import opened Records

  /** The `ValueError`s construction raises, with what their messages name. */
  datatype FilterError =
    | TagsOverlap(tag: string)
    | IncludeNotHashtag(includeTags: seq<string>)
    | ExcludeNotHashtag(excludeTags: seq<string>)
    | ScopeInvalid

  /** Python's `any(tag in text for tag in tags)`. */
  function AnyContained(text: string, tags: seq<string>): (r: bool)
    ensures r <==> exists i :: 0 <= i < |tags| && Contains(text, tags[i])
    decreases |tags|
  {
    if |tags| == 0 then false
    else Contains(text, tags[0]) || AnyContained(text, tags[1..])
  }

  // ---------------------------------------------------------------------
  // MastodonFilter (Telegram -> Mastodon)

  datatype MastodonFilter = MastodonFilter(includeTags: seq<string>, excludeTags: seq<string>)

  /** The first include tag, in order, that also appears in the exclude list. */
  function FirstOverlap(includeTags: seq<string>, excludeTags: seq<string>): (r: Option<string>)
    ensures r.None? <==> forall i :: 0 <= i < |includeTags| ==> includeTags[i] !in excludeTags
    ensures r.Some? ==> exists i :: 0 <= i < |includeTags| && includeTags[i] == r.value && r.value in excludeTags &&
                                    forall j :: 0 <= j < i ==> includeTags[j] !in excludeTags
    decreases |includeTags|
  {
    if |includeTags| == 0 then None
    else if includeTags[0] in excludeTags then Some(includeTags[0])
    else
      FirstOverlap(includeTags[1..], excludeTags)
  }

  predicate AllHashtags(tags: seq<string>)
  {
    forall i :: 0 <= i < |tags| ==> IsPrefix("#", tags[i])
  }

  /**
   * Construction: raises when an include tag is also excluded (checked
   * first, naming the first such tag), then when an include tag, then an
   * exclude tag, does not start with `#`.
   */
  function NewMastodonFilter(includeTags: seq<string>, excludeTags: seq<string>): (r: Result<MastodonFilter, FilterError>)
    ensures r.Ok? <==>
      (forall i :: 0 <= i < |includeTags| ==> includeTags[i] !in excludeTags) && AllHashtags(includeTags) && AllHashtags(excludeTags)
    ensures r.Ok? ==> r.value == MastodonFilter(includeTags, excludeTags)
    ensures (exists i :: 0 <= i < |includeTags| && includeTags[i] in excludeTags) ==> r.Err? && r.error.TagsOverlap?
    ensures r.Err? && r.error.TagsOverlap? ==> r.error.tag in includeTags && r.error.tag in excludeTags
    ensures ((forall i :: 0 <= i < |includeTags| ==> includeTags[i] !in excludeTags) && !AllHashtags(includeTags)) ==>
      r == Err(IncludeNotHashtag(includeTags))
    ensures ((forall i :: 0 <= i < |includeTags| ==> includeTags[i] !in excludeTags) && AllHashtags(includeTags) &&
             !AllHashtags(excludeTags)) ==> r == Err(ExcludeNotHashtag(excludeTags))
  {
    match FirstOverlap(includeTags, excludeTags)
    case Some(tag) => Err(TagsOverlap(tag))
    case None =>
      if !AllHashtags(includeTags) then Err(IncludeNotHashtag(includeTags))
      else if !AllHashtags(excludeTags) then Err(ExcludeNotHashtag(excludeTags))
      else Ok(MastodonFilter(includeTags, excludeTags))
  }

  /** `MastodonFilter.__call__(text)`. */
  predicate Accepts(f: MastodonFilter, text: string)
    ensures AnyContained(text, f.excludeTags) ==> !Accepts(f, text)
    ensures |f.includeTags| > 0 && !AnyContained(text, f.includeTags) ==> !Accepts(f, text)
    ensures |f.includeTags| == 0 ==> (Accepts(f, text) <==> !AnyContained(text, f.excludeTags))
  {
    var excluded := AnyContained(text, f.excludeTags);
    if |f.includeTags| > 0 then AnyContained(text, f.includeTags) && !excluded else !excluded
  }

  /**
   * A text passes iff no exclude tag occurs in it and, when the include list
   * is non-empty, some include tag does.
   */
  lemma AcceptsIff(f: MastodonFilter, text: string)
    ensures Accepts(f, text) <==>
      (forall i :: 0 <= i < |f.excludeTags| ==> !Contains(text, f.excludeTags[i])) &&
      (|f.includeTags| > 0 ==> exists i :: 0 <= i < |f.includeTags| && Contains(text, f.includeTags[i]))
  {
  }

  /** Matching is substring containment, not whole-word: `#mastodon` rejects `#mastodonx`. */
  lemma SubstringMatch()
    ensures !Accepts(MastodonFilter([], ["#mastodon"]), "#mastodonx")
  {
    assert IsPrefix("#mastodon", "#mastodonx");
  }

  /** With nothing included and nothing excluded, every text passes. */
  lemma EmptyFilterAcceptsAll(text: string)
    ensures Accepts(MastodonFilter([], []), text)
  {
  }

  /** Excluding more tags never turns a rejected text into an accepted one. */
  lemma ExcludeMoreRejectsMore(f: MastodonFilter, extra: seq<string>, text: string)
    ensures Accepts(f.(excludeTags := f.excludeTags + extra), text) ==> Accepts(f, text)
  {
    var g := f.(excludeTags := f.excludeTags + extra);
    if AnyContained(text, f.excludeTags) {
      var i :| 0 <= i < |f.excludeTags| && Contains(text, f.excludeTags[i]);
      assert g.excludeTags[i] == f.excludeTags[i];
    }
  }

  // ---------------------------------------------------------------------
  // TelegramFilter (Mastodon -> Telegram)

  datatype TelegramFilter = TelegramFilter(scope: seq<string>)

  const Visibilities: seq<string> := ["public", "unlisted", "private", "direct"]

  /** Python's `any(scope not in (...) for scope in scopes)`. */
  function AnyUnknownScope(scope: seq<string>): (r: bool)
    ensures r <==> exists i :: 0 <= i < |scope| && scope[i] !in Visibilities
    decreases |scope|
  {
    if |scope| == 0 then false
    else scope[0] !in Visibilities || AnyUnknownScope(scope[1..])
  }

  /** Construction raises iff the scope is non-empty and names an unknown visibility. */
  function NewTelegramFilter(scope: seq<string>): (r: Result<TelegramFilter, FilterError>)
    ensures r.Err? <==> |scope| > 0 && exists i :: 0 <= i < |scope| && scope[i] !in Visibilities
    ensures r.Ok? ==> r.value == TelegramFilter(scope)
    ensures r.Err? ==> r.error == ScopeInvalid
  {
    if |scope| > 0 && AnyUnknownScope(scope) then Err(ScopeInvalid) else Ok(TelegramFilter(scope))
  }

  /** `TelegramFilter.__call__(status)`. */
  predicate TelegramAccepts(f: TelegramFilter, s: Status)
    ensures TelegramAccepts(f, s) <==>
      s.inReplyToId.None? && exists i :: 0 <= i < |f.scope| && f.scope[i] == s.visibility
  {
    s.inReplyToId.None? && s.visibility in f.scope
  }

  /** An empty scope passes construction but accepts no status. */
  lemma EmptyScope(s: Status)
    ensures NewTelegramFilter([]) == Ok(TelegramFilter([]))
    ensures !TelegramAccepts(TelegramFilter([]), s)
  {
  }
}
