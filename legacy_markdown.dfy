/**
 * The earlier converter at the repository root: the same `escape`, but the
 * constructor forces two options on instead of declaring class defaults.
 */
module LegacyMarkdown {
  import opened Wrappers
  import opened Markdown

  /**
   * The options the constructor passes on to the converter library: whatever
   * the caller asks for, brackets and backquotes are escaped.
   */
  function ConstructorOptions(passed: Options): (o: Options)
    ensures o.escapeBrackets && o.escapeBackquote
    ensures o.autolinks == passed.autolinks
    ensures o.escapeAsterisks == passed.escapeAsterisks
    ensures o.escapeUnderscores == passed.escapeUnderscores
  {
    var options := passed.(escapeBrackets := true);
    options.(escapeBackquote := true)
  }

  /** Widening the enabled set never lowers the count, and a newly enabled character present raises it. */
  lemma {:induction false} CountEnabledWider(o1: Options, o2: Options, s: string, k: nat)
    requires forall c :: Enabled(o1, c) ==> Enabled(o2, c)
    requires k < |s| && Enabled(o2, s[k]) && !Enabled(o1, s[k])
    ensures CountEnabled(o1, s) < CountEnabled(o2, s)
    decreases |s|
  {
    if k > 0 {
      CountEnabledWider(o1, o2, s[1..], k - 1);
    } else {
      CountEnabledAtMost(o1, o2, s[1..]);
    }
  }

  lemma {:induction false} CountEnabledAtMost(o1: Options, o2: Options, s: string)
    requires forall c :: Enabled(o1, c) ==> Enabled(o2, c)
    ensures CountEnabled(o1, s) <= CountEnabled(o2, s)
    decreases |s|
  {
    if |s| > 0 {
      CountEnabledAtMost(o1, o2, s[1..]);
    }
  }

  /**
   * The legacy `escape` under the options its constructor forces: empty or
   * `None` input gives `''`, other input the per-character escape, which is
   * longer by the number of enabled targets, every bracket and backquote
   * among them.
   */
  lemma LegacyEscape(passed: Options, s: string)
    ensures Escape(ConstructorOptions(passed), None) == "" && Escape(ConstructorOptions(passed), Some("")) == ""
    ensures Escape(ConstructorOptions(passed), Some(s)) == EscapeEach(ConstructorOptions(passed), s)
    ensures |Escape(ConstructorOptions(passed), Some(s))| == |s| + CountEnabled(ConstructorOptions(passed), s)
  {
    EscapeIsPerCharacter(ConstructorOptions(passed), s);
    EscapeLength(ConstructorOptions(passed), s);
  }

  /** For option values that already escape brackets and backquotes, the legacy `escape` is the package's. */
  lemma SameAsPackage(passed: Options, text: Option<string>)
    requires passed.escapeBrackets && passed.escapeBackquote
    ensures Escape(ConstructorOptions(passed), text) == Escape(passed, text)
  {
  }

  /**
   * The override is observable: when the caller turned off the escape of a
   * bracket or backquote that the text holds, the legacy output differs
   * from the package's (it is longer).
   */
  lemma OverrideObservable(passed: Options, s: string, k: nat)
    requires k < |s| && (s[k] == '[' || s[k] == '`') && !Enabled(passed, s[k])
    ensures |Escape(ConstructorOptions(passed), Some(s))| > |Escape(passed, Some(s))|
  {
    var forced := ConstructorOptions(passed);
    CountEnabledWider(passed, forced, s, k);
    EscapeLength(passed, s);
    EscapeLength(forced, s);
  }
}
