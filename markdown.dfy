/**
 * The converter that turns Mastodon's HTML into the legacy Markdown style
 * of the Telegram Bot API (section "Markdown style" of the Bot API
 * documentation): its option defaults and its `escape` of the four
 * metacharacters `*`, `_`, `[` and `` ` ``.
 */
module Markdown {
  import opened Wrappers

  /** The converter options `escape` and the defaults read. */
  datatype Options = Options(
    autolinks: bool,
    escapeAsterisks: bool,
    escapeUnderscores: bool,
    escapeBrackets: bool,
    escapeBackquote: bool)

  /**
   * The converter's option defaults: its own class overrides three of the
   * library's defaults and inherits the others from `inherited`.
   */
  function TelegramDefaults(inherited: Options): (o: Options)
    ensures !o.autolinks && o.escapeBrackets && o.escapeBackquote
    ensures o.escapeAsterisks == inherited.escapeAsterisks
    ensures o.escapeUnderscores == inherited.escapeUnderscores
  {
    inherited.(autolinks := false, escapeBrackets := true, escapeBackquote := true)
  }

  /** Python's `s.replace(c, r)` for a one-character pattern. */
  function ReplaceChar(s: string, c: char, r: string): (out: string)
    ensures |r| >= 1 ==> |out| >= |s|
    decreases |s|
  {
    if |s| == 0 then "" else (if s[0] == c then r else [s[0]]) + ReplaceChar(s[1..], c, r)
  }

  /** The four guarded replacements of `escape`, in the order the source applies them. */
  function Replacements(o: Options, t0: string): string
  {
    var t1 := if o.escapeAsterisks then ReplaceChar(t0, '*', "\\*") else t0;
    var t2 := if o.escapeUnderscores then ReplaceChar(t1, '_', "\\_") else t1;
    var t3 := if o.escapeBrackets then ReplaceChar(t2, '[', "\\[") else t2;
    if o.escapeBackquote then ReplaceChar(t3, '`', "\\`") else t3
  }

  /** `escape(text)`: empty or `None` input gives `''`, anything else the replacements. */
  function Escape(o: Options, text: Option<string>): (r: string)
    ensures text.None? || text.value == "" ==> r == ""
    ensures text.Some? ==> |r| >= |text.value|
  {
    if text.None? || text.value == "" then "" else Replacements(o, text.value)
  }

  /** The character `c` is one `o` says to escape. */
  predicate Enabled(o: Options, c: char)
  {
    || (c == '*' && o.escapeAsterisks)
    || (c == '_' && o.escapeUnderscores)
    || (c == '[' && o.escapeBrackets)
    || (c == '`' && o.escapeBackquote)
  }

  /** The escape of one character, taken on its own. */
  function EscapeChar(o: Options, c: char): (r: string)
    ensures Enabled(o, c) ==> r == ['\\', c]
    ensures !Enabled(o, c) ==> r == [c]
  {
    if Enabled(o, c) then ['\\', c] else [c]
  }

  /** Reference definition: escape character by character. */
  function EscapeEach(o: Options, s: string): string
    decreases |s|
  {
    if |s| == 0 then "" else EscapeChar(o, s[0]) + EscapeEach(o, s[1..])
  }

  /** How many characters of `s` are enabled targets. */
  function CountEnabled(o: Options, s: string): nat
    decreases |s|
  {
    if |s| == 0 then 0 else (if Enabled(o, s[0]) then 1 else 0) + CountEnabled(o, s[1..])
  }

  lemma {:induction false} ReplaceCharConcat(a: string, b: string, c: char, r: string)
    ensures ReplaceChar(a + b, c, r) == ReplaceChar(a, c, r) + ReplaceChar(b, c, r)
    decreases |a|
  {
    if |a| == 0 {
      assert a + b == b;
    } else {
      assert (a + b)[1..] == a[1..] + b;
      ReplaceCharConcat(a[1..], b, c, r);
    }
  }

  lemma ReplacementsConcat(o: Options, a: string, b: string)
    ensures Replacements(o, a + b) == Replacements(o, a) + Replacements(o, b)
  {
    var a1 := if o.escapeAsterisks then ReplaceChar(a, '*', "\\*") else a;
    var b1 := if o.escapeAsterisks then ReplaceChar(b, '*', "\\*") else b;
    ReplaceCharConcat(a, b, '*', "\\*");
    var a2 := if o.escapeUnderscores then ReplaceChar(a1, '_', "\\_") else a1;
    var b2 := if o.escapeUnderscores then ReplaceChar(b1, '_', "\\_") else b1;
    ReplaceCharConcat(a1, b1, '_', "\\_");
    var a3 := if o.escapeBrackets then ReplaceChar(a2, '[', "\\[") else a2;
    var b3 := if o.escapeBrackets then ReplaceChar(b2, '[', "\\[") else b2;
    ReplaceCharConcat(a2, b2, '[', "\\[");
    ReplaceCharConcat(a3, b3, '`', "\\`");
  }

  /** Replacing in a string that does not hold the pattern changes nothing. */
  lemma ReplaceCharAbsent(s: string, c: char, r: string)
    requires c !in s
    ensures ReplaceChar(s, c, r) == s
    decreases |s|
  {
    if |s| > 0 {
      ReplaceCharAbsent(s[1..], c, r);
      assert [s[0]] + s[1..] == s;
    }
  }

  lemma ReplaceCharSingle(x: char, c: char, r: string)
    ensures ReplaceChar([x], c, r) == if x == c then r else [x]
  {
    assert [x][1..] == [];
  }

  /** On one character, the replacement chain is that character's escape. */
  /**
   * One guarded replace applied to a single character, possibly already
   * escaped by an earlier step for another target: it escapes the character
   * iff the step is on and the character is its target.
   */
  lemma GuardedStep(on: bool, t: string, x: char, c: char)
    requires c != '\\'
    requires t == [x] || (t == ['\\', x] && x != c)
    ensures (if on then ReplaceChar(t, c, ['\\', c]) else t) == (if on && x == c then ['\\', x] else t)
  {
    if on {
      if t == [x] {
        ReplaceCharSingle(x, c, ['\\', c]);
      } else {
        ReplaceCharAbsent(t, c, ['\\', c]);
      }
    }
  }

  lemma ReplacementsSingle(o: Options, x: char)
    ensures Replacements(o, [x]) == EscapeChar(o, x)
  {
    // No step can hit the backslash a previous step inserted, nor a target
    // other than its own.
    var t1 := if o.escapeAsterisks then ReplaceChar([x], '*', "\\*") else [x];
    GuardedStep(o.escapeAsterisks, [x], x, '*');
    var t2 := if o.escapeUnderscores then ReplaceChar(t1, '_', "\\_") else t1;
    GuardedStep(o.escapeUnderscores, t1, x, '_');
    var t3 := if o.escapeBrackets then ReplaceChar(t2, '[', "\\[") else t2;
    GuardedStep(o.escapeBrackets, t2, x, '[');
    GuardedStep(o.escapeBackquote, t3, x, '`');
  }


  /**
   * The four successive replaces equal one per-character map: every enabled
   * target becomes backslash + target, everything else (existing
   * backslashes too) is copied in order.
   */
  lemma {:induction false} EscapeIsPerCharacter(o: Options, s: string)
    ensures Escape(o, Some(s)) == EscapeEach(o, s)
    decreases |s|
  {
    if |s| > 0 {
      EscapeIsPerCharacter(o, s[1..]);
      assert [s[0]] + s[1..] == s;
      ReplacementsConcat(o, [s[0]], s[1..]);
      ReplacementsSingle(o, s[0]);
      if s[1..] == "" {
        assert Replacements(o, "") == "";
      }
    }
  }

  /** Empty or missing input renders as the empty string. */
  lemma EscapeEmpty(o: Options)
    ensures Escape(o, None) == "" && Escape(o, Some("")) == ""
  {
  }

  lemma {:induction false} EscapeEachLength(o: Options, s: string)
    ensures |EscapeEach(o, s)| == |s| + CountEnabled(o, s)
    decreases |s|
  {
    if |s| > 0 {
      EscapeEachLength(o, s[1..]);
    }
  }

  /** The output is one character longer per enabled target in the input. */
  lemma EscapeLength(o: Options, s: string)
    ensures |Escape(o, Some(s))| == |s| + CountEnabled(o, s)
  {
    EscapeIsPerCharacter(o, s);
    EscapeEachLength(o, s);
  }

  lemma {:induction false} CountEnabledConcat(o: Options, a: string, b: string)
    ensures CountEnabled(o, a + b) == CountEnabled(o, a) + CountEnabled(o, b)
    decreases |a|
  {
    if |a| == 0 {
      assert a + b == b;
    } else {
      assert (a + b)[1..] == a[1..] + b;
      CountEnabledConcat(o, a[1..], b);
    }
  }

  /** Escaping keeps every target (the inserted backslash is never one). */
  lemma {:induction false} EscapeEachKeepsTargets(o: Options, s: string)
    ensures CountEnabled(o, EscapeEach(o, s)) == CountEnabled(o, s)
    decreases |s|
  {
    if |s| > 0 {
      EscapeEachKeepsTargets(o, s[1..]);
      CountEnabledConcat(o, EscapeChar(o, s[0]), EscapeEach(o, s[1..]));
      var e := EscapeChar(o, s[0]);
      if Enabled(o, s[0]) {
        assert e[1..] == [s[0]] && e[1..][1..] == [];
      } else {
        assert e[1..] == [];
      }
    }
  }

  /**
   * `escape` is not idempotent: there is no guard for already-escaped input,
   * so escaping again adds one more backslash before every target.
   */
  lemma EscapeTwice(o: Options, s: string)
    ensures |Escape(o, Some(Escape(o, Some(s))))| == |Escape(o, Some(s))| + CountEnabled(o, s)
    ensures CountEnabled(o, s) > 0 ==> Escape(o, Some(Escape(o, Some(s)))) != Escape(o, Some(s))
  {
    var once := Escape(o, Some(s));
    EscapeLength(o, once);
    EscapeIsPerCharacter(o, s);
    EscapeEachKeepsTargets(o, s);
  }

  /** All four metacharacters of the legacy Markdown style. */
  predicate IsMeta(c: char)
  {
    c == '*' || c == '_' || c == '[' || c == '`'
  }

  predicate AllEscaped(o: Options)
  {
    o.escapeAsterisks && o.escapeUnderscores && o.escapeBrackets && o.escapeBackquote
  }

  /** Delete each backslash that directly precedes a metacharacter. */
  function Unescape(s: string): string
    decreases |s|
  {
    if |s| == 0 then ""
    else if |s| >= 2 && s[0] == '\\' && IsMeta(s[1]) then [s[1]] + Unescape(s[2..])
    else [s[0]] + Unescape(s[1..])
  }

  lemma EscapeEachStart(o: Options, s: string)
    requires AllEscaped(o) && |s| > 0
    ensures |EscapeEach(o, s)| > 0 && !IsMeta(EscapeEach(o, s)[0])
  {
  }

  /** A backslash before a metacharacter is deleted. */
  lemma UnescapeMeta(c: char, rest: string)
    requires IsMeta(c)
    ensures Unescape(['\\', c] + rest) == [c] + Unescape(rest)
  {
    assert (['\\', c] + rest)[2..] == rest;
  }

  /** A character that does not start an escape is kept. */
  lemma UnescapePlain(c: char, rest: string)
    requires !(c == '\\' && |rest| > 0 && IsMeta(rest[0]))
    ensures Unescape([c] + rest) == [c] + Unescape(rest)
  {
    assert ([c] + rest)[1..] == rest;
  }

  lemma {:induction false} UnescapeEscapeEach(o: Options, s: string)
    requires AllEscaped(o)
    ensures Unescape(EscapeEach(o, s)) == s
    decreases |s|
  {
    if |s| > 0 {
      UnescapeEscapeEach(o, s[1..]);
      var rest := EscapeEach(o, s[1..]);
      assert EscapeEach(o, s) == EscapeChar(o, s[0]) + rest;
      if IsMeta(s[0]) {
        UnescapeMeta(s[0], rest);
      } else {
        if |s| > 1 {
          EscapeEachStart(o, s[1..]);
        } else {
          assert rest == "";
        }
        UnescapePlain(s[0], rest);
      }
      assert [s[0]] + s[1..] == s;
    }
  }


  /** With all four options on, removing the inserted backslashes recovers the input exactly. */
  lemma EscapeRoundTrip(o: Options, s: string)
    requires AllEscaped(o)
    ensures Unescape(Escape(o, Some(s))) == s
  {
    EscapeIsPerCharacter(o, s);
    UnescapeEscapeEach(o, s);
  }
}
