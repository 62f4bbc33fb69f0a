/** Placeholder substitution and the recursive embed renderer with its URL check
    (core/components/DiscordBot/commands/status.ts:39-40, 118-157). */
module Render {
  import opened Wrappers
  import opened Json
  import opened Placeholders

  /** `{{key}}`. */
  function Token(key: string): (t: string)
    ensures |t| == |key| + 4 && t[0] == '{' && t[1] == '{'
    ensures t[2..|t| - 2] == key && t[|t| - 2..] == "}}"
  {
    "{{" + key + "}}"
  }

  /** The replacement text `String.prototype.replaceAll` inserts for one match of a plain
      string pattern: `$$` gives `$`, `$&` the match, `` $` `` the text before it and `$'`
      the text after it; every other `$` is literal. */
  function Substitution(replacement: string, matched: string, before: string, after: string): string
    decreases |replacement|
  {
    if replacement == [] then []
    else if replacement[0] == '$' && |replacement| >= 2 && replacement[1] in "$&`'" then
      var expansion :=
        if replacement[1] == '$' then "$"
        else if replacement[1] == '&' then matched
        else if replacement[1] == '`' then before
        else after;
      expansion + Substitution(replacement[2..], matched, before, after)
    else
      [replacement[0]] + Substitution(replacement[1..], matched, before, after)
  }

  /** A replacement with no `$` is inserted verbatim. */
  lemma {:induction false} SubstitutionVerbatim(replacement: string, matched: string, before: string, after: string)
    requires '$' !in replacement
    ensures Substitution(replacement, matched, before, after) == replacement
    decreases |replacement|
  {
    if replacement != [] {
      assert replacement[0] != '$';
      assert '$' !in replacement[1..] by {
        forall i | 0 <= i < |replacement[1..]| ensures replacement[1..][i] != '$' {
          assert replacement[1..][i] == replacement[i + 1];
        }
      }
      SubstitutionVerbatim(replacement[1..], matched, before, after);
    }
  }

  /** A `$`-free head of the replacement is inserted verbatim before the rest. */
  lemma {:induction false} SubstitutionLiteralHead(head: string, rest: string, matched: string, before: string, after: string)
    requires '$' !in head
    ensures Substitution(head + rest, matched, before, after) == head + Substitution(rest, matched, before, after)
    decreases |head|
  {
    if head != [] {
      assert head[0] in head;
      assert (head + rest)[0] == head[0] != '$';
      assert (head + rest)[1..] == head[1..] + rest;
      assert '$' !in head[1..] by {
        forall i | 0 <= i < |head[1..]| ensures head[1..][i] != '$' {
          assert head[1..][i] == head[i + 1];
        }
      }
      SubstitutionLiteralHead(head[1..], rest, matched, before, after);
      var tail := Substitution(rest, matched, before, after);
      calc {
        Substitution(head + rest, matched, before, after);
        [head[0]] + Substitution(head[1..] + rest, matched, before, after);
        [head[0]] + (head[1..] + tail);
        ([head[0]] + head[1..]) + tail;
        { assert [head[0]] + head[1..] == head; }
        head + tail;
      }
    } else {
      assert head + rest == rest;
    }
  }

  /** `s.replaceAll(pat, v)` from position `i` on: matches are found left to right and do
      not overlap. */
  function ReplaceFrom(s: string, pat: string, v: string, i: nat): string
    requires |pat| > 0 && i <= |s|
    decreases |s| - i
  {
    if i + |pat| > |s| then s[i..]
    else if s[i..i + |pat|] == pat then
      Substitution(v, pat, s[..i], s[i + |pat|..]) + ReplaceFrom(s, pat, v, i + |pat|)
    else
      [s[i]] + ReplaceFrom(s, pat, v, i + 1)
  }

  function ReplaceAll(s: string, pat: string, v: string): string
    requires |pat| > 0
  {
    ReplaceFrom(s, pat, v, 0)
  }

  /** `pat` occurs in `s` at position `j`. */
  predicate MatchAt(s: string, pat: string, j: nat)
  {
    j + |pat| <= |s| && s[j..j + |pat|] == pat
  }

  predicate OccursFrom(s: string, pat: string, i: nat)
  {
    exists j: nat :: i <= j <= |s| && MatchAt(s, pat, j)
  }

  predicate Occurs(s: string, pat: string)
  {
    OccursFrom(s, pat, 0)
  }

  /** Without an occurrence of the pattern, `replaceAll` returns its input. */
  lemma {:induction false} ReplaceFromNoOccurrence(s: string, pat: string, v: string, i: nat)
    requires |pat| > 0 && i <= |s|
    requires !OccursFrom(s, pat, i)
    ensures ReplaceFrom(s, pat, v, i) == s[i..]
    decreases |s| - i
  {
    if i + |pat| <= |s| {
      assert !MatchAt(s, pat, i);
      assert !OccursFrom(s, pat, i + 1) by {
        forall j: nat | i + 1 <= j ensures !MatchAt(s, pat, j) {
          assert i <= j;
        }
      }
      ReplaceFromNoOccurrence(s, pat, v, i + 1);
      assert s[i..] == [s[i]] + s[i + 1..];
    }
  }

  /** Text free of `{` before position `k` is copied unchanged by a `{`-led pattern. */
  lemma {:induction false} ReplaceFromLiteralSpan(s: string, pat: string, v: string, i: nat, k: nat)
    requires |pat| > 0 && pat[0] == '{' && i <= k <= |s|
    requires forall j :: i <= j < k ==> s[j] != '{'
    ensures ReplaceFrom(s, pat, v, i) == s[i..k] + ReplaceFrom(s, pat, v, k)
    decreases k - i
  {
    if i < k {
      if i + |pat| <= |s| {
        assert s[i..i + |pat|][0] == s[i] != '{';
      }
      assert ReplaceFrom(s, pat, v, i) == [s[i]] + ReplaceFrom(s, pat, v, i + 1);
      ReplaceFromLiteralSpan(s, pat, v, i + 1, k);
      var rest := ReplaceFrom(s, pat, v, k);
      calc {
        ReplaceFrom(s, pat, v, i);
        [s[i]] + (s[i + 1..k] + rest);
        ([s[i]] + s[i + 1..k]) + rest;
        { assert s[i..k] == [s[i]] + s[i + 1..k]; }
        s[i..k] + rest;
      }
    }
  }

  lemma NoBraceNoOccurrence(s: string, pat: string)
    requires |pat| > 0 && pat[0] == '{' && '{' !in s
    ensures !Occurs(s, pat)
  {
    forall j: nat ensures !MatchAt(s, pat, j) {
      if j + |pat| <= |s| {
        assert s[j] in s;
        assert s[j..j + |pat|][0] == s[j] != pat[0];
      }
    }
  }

  predicate NoBraces(s: string)
  {
    '{' !in s && '}' !in s
  }

  /** Two different brace-free keys: neither token occurs inside the other. */
  lemma TokenNotInOtherToken(a: string, b: string)
    requires NoBraces(a) && NoBraces(b) && a != b
    ensures !Occurs(Token(a), Token(b))
  {
    var ta, tb := Token(a), Token(b);
    forall j: nat | j + |tb| <= |ta| ensures !MatchAt(ta, tb, j) {
      var window := ta[j..j + |tb|];
      if j >= 2 {
        assert ta[j] == a[j - 2] && a[j - 2] in a;
        assert window[0] != tb[0];
      } else if j == 1 {
        assert ta[2] == a[0] && a[0] in a;
        assert window[1] != tb[1];
      } else if |tb| == |ta| {
        assert ta[2..|ta| - 2] == a && tb[2..|tb| - 2] == b;
        assert window == ta != tb;
      } else {
        assert |b| < |a| && a[|b|] in a;
        assert window[|b| + 2] == a[|b|] != '}' == tb[|b| + 2];
      }
    }
  }

  /** The whole string is one token: it becomes the substituted value. */
  lemma ReplaceAllExactToken(pat: string, v: string)
    requires |pat| > 0
    ensures ReplaceAll(pat, pat, v) == Substitution(v, pat, "", "")
  {
    assert pat[0..|pat|] == pat;
    assert pat[..0] == "" && pat[|pat|..] == "";
    assert ReplaceFrom(pat, pat, v, |pat|) == [];
  }

  /** The substitution fold over the given entries, in order (status.ts:120-122). */
  function ApplyEntries(s: string, es: seq<Entry>): string
    decreases |es|
  {
    if es == [] then s
    else
      var last := es[|es| - 1];
      ReplaceAll(ApplyEntries(s, es[..|es| - 1]), Token(last.key), last.value)
  }

  /** `replacePlaceholders(s)`: every key applied in declaration order. */
  function Substituted(s: string, p: PlaceholderMap): string
  {
    ApplyEntries(s, Entries(p))
  }

  /** The source's `forEach` loop that reassigns the string once per placeholder key. */
  method ReplacePlaceholders(input: string, p: PlaceholderMap) returns (r: string)
    ensures r == Substituted(input, p)
  {
    var entries := Entries(p);
    r := input;
    var i := 0;
    while i < |entries|
      invariant 0 <= i <= |entries|
      invariant r == ApplyEntries(input, entries[..i])
    {
      assert entries[..i + 1][..i] == entries[..i];
      r := ReplaceAll(r, Token(entries[i].key), entries[i].value);
      i := i + 1;
    }
    assert entries[..|entries|] == entries;
  }

  lemma KeysAreBraceFree()
    ensures forall i :: 0 <= i < |Keys| ==> NoBraces(Keys[i])
    ensures forall i, j :: 0 <= i < j < |Keys| ==> Keys[i] != Keys[j]
  {
  }

  /** A string that contains none of the ten tokens passes through the fold unchanged. */
  lemma {:induction false} ApplyEntriesNoTokens(s: string, es: seq<Entry>)
    requires forall i :: 0 <= i < |es| ==> !Occurs(s, Token(es[i].key))
    ensures ApplyEntries(s, es) == s
    decreases |es|
  {
    if es != [] {
      var init := es[..|es| - 1];
      ApplyEntriesNoTokens(s, init);
      ReplaceFromNoOccurrence(s, Token(es[|es| - 1].key), es[|es| - 1].value, 0);
    }
  }

  lemma SubstitutedNoTokens(s: string, p: PlaceholderMap)
    requires forall k :: k in Keys ==> !Occurs(s, Token(k))
    ensures Substituted(s, p) == s
  {
    var es := Entries(p);
    forall i | 0 <= i < |es| ensures !Occurs(s, Token(es[i].key)) {
      assert es[i].key == Keys[i];
    }
    ApplyEntriesNoTokens(s, es);
  }

  /** Text without `{` cannot hold a token, so it comes back unchanged. */
  lemma SubstitutedBraceFree(s: string, p: PlaceholderMap)
    requires '{' !in s
    ensures Substituted(s, p) == s
  {
    forall k | k in Keys ensures !Occurs(s, Token(k)) {
      NoBraceNoOccurrence(s, Token(k));
    }
    SubstitutedNoTokens(s, p);
  }

  /** Steps before a token's own key leave that token untouched. */
  lemma {:induction false} ApplyEntriesKeepsLaterToken(es: seq<Entry>, n: nat, k: string)
    requires n <= |es| && NoBraces(k)
    requires forall i :: 0 <= i < n ==> NoBraces(es[i].key) && es[i].key != k
    ensures ApplyEntries(Token(k), es[..n]) == Token(k)
    decreases n
  {
    if n > 0 {
      assert es[..n][..n - 1] == es[..n - 1];
      ApplyEntriesKeepsLaterToken(es, n - 1, k);
      TokenNotInOtherToken(k, es[n - 1].key);
      ReplaceFromNoOccurrence(Token(k), Token(es[n - 1].key), es[n - 1].value, 0);
    }
  }

  /** Steps after a brace-free text was produced leave it untouched. */
  lemma {:induction false} ApplyEntriesBraceFreeTail(s: string, es: seq<Entry>, m: nat, n: nat)
    requires m <= n <= |es|
    requires '{' !in ApplyEntries(s, es[..m])
    ensures ApplyEntries(s, es[..n]) == ApplyEntries(s, es[..m])
    decreases n - m
  {
    if m < n {
      ApplyEntriesBraceFreeTail(s, es, m, n - 1);
      assert es[..n][..n - 1] == es[..n - 1];
      NoBraceNoOccurrence(ApplyEntries(s, es[..m]), Token(es[n - 1].key));
      ReplaceFromNoOccurrence(ApplyEntries(s, es[..m]), Token(es[n - 1].key), es[n - 1].value, 0);
    }
  }

  /** A string that is exactly `{{key}}` renders to that key's value when the value holds
      neither `{` nor `$`. */
  lemma SubstitutedSingleToken(p: PlaceholderMap, i: nat)
    requires i < |Keys|
    requires '{' !in Entries(p)[i].value && '$' !in Entries(p)[i].value
    ensures Substituted(Token(Keys[i]), p) == Entries(p)[i].value
  {
    var es := Entries(p);
    KeysAreBraceFree();
    ApplyEntriesKeepsLaterToken(es, i, Keys[i]);
    assert es[..i + 1][..i] == es[..i];
    ReplaceAllExactToken(Token(Keys[i]), es[i].value);
    SubstitutionVerbatim(es[i].value, Token(Keys[i]), "", "");
    ApplyEntriesBraceFreeTail(Token(Keys[i]), es, i + 1, |es|);
    assert es[..|es|] == es;
  }

  /** In brace-free text around `{{key}}`, the token of any other brace-free key occurs
      nowhere. */
  lemma OtherTokenAbsent(a: string, key: string, b: string, k: string)
    requires '{' !in a && '{' !in b && NoBraces(key) && NoBraces(k) && k != key
    ensures !Occurs(a + Token(key) + b, Token(k))
  {
    var tok, pat := Token(key), Token(k);
    var s := a + tok + b;
    forall j: nat | j + |pat| <= |s| ensures !MatchAt(s, pat, j) {
      var window := s[j..j + |pat|];
      if j < |a| {
        assert s[j] == a[j] && a[j] in a;
        assert window[0] != pat[0];
      } else if j == |a| {
        if |k| < |key| {
          assert s[j + |k| + 2] == tok[|k| + 2] == key[|k|] && key[|k|] in key;
          assert window[|k| + 2] != pat[|k| + 2];
        } else if |k| > |key| {
          assert s[j + |key| + 2] == tok[|key| + 2] == '}';
          assert pat[|key| + 2] == k[|key|] && k[|key|] in k;
          assert window[|key| + 2] != pat[|key| + 2];
        } else {
          assert window == tok;
          assert tok[2..|tok| - 2] == key && pat[2..|pat| - 2] == k;
        }
      } else if j == |a| + 1 {
        assert s[j + 1] == tok[2];
        if |key| > 0 {
          assert tok[2] == key[0] && key[0] in key;
        }
        assert window[1] != pat[1];
      } else if j < |a| + |tok| {
        var m := j - |a|;
        assert s[j] == tok[m];
        if m < |key| + 2 {
          assert tok[m] == key[m - 2] && key[m - 2] in key;
        }
        assert window[0] != pat[0];
      } else {
        assert s[j] == b[j - |a| - |tok|] && b[j - |a| - |tok|] in b;
        assert window[0] != pat[0];
      }
    }
  }

  /** Replacing `{{key}}` in brace-free text around it inserts the `$`-free value there. */
  lemma {:induction false} ReplaceEmbeddedToken(a: string, key: string, b: string, v: string)
    requires '{' !in a && '{' !in b && '$' !in v
    ensures ReplaceAll(a + Token(key) + b, Token(key), v) == a + v + b
  {
    var tok := Token(key);
    var s := a + tok + b;
    BraceFreeHead(a, tok + b);
    assert s == a + (tok + b);
    ReplaceFromLiteralSpan(s, tok, v, 0, |a|);
    assert s[0..|a|] == a;
    TokenThenTail(a, tok, b, v);
  }

  /** At the token itself, the `$`-free value replaces it and the brace-free rest is
      copied. */
  lemma {:induction false} TokenThenTail(a: string, tok: string, b: string, v: string)
    requires |tok| > 0 && tok[0] == '{' && '{' !in b && '$' !in v
    ensures ReplaceFrom(a + tok + b, tok, v, |a|) == v + b
  {
    var s := a + tok + b;
    assert s[|a|..|a| + |tok|] == tok;
    assert s[..|a|] == a && s[|a| + |tok|..] == b;
    var at := |a| + |tok|;
    ReplaceFromAtMatch(s, tok, v, |a|, a, b);
    SubstitutionVerbatim(v, tok, a, b);
    forall j | at <= j < |s| ensures s[j] != '{' {
      assert s[j] == b[j - at] && b[j - at] in b;
    }
    BraceFreeTailReplaced(s, at, tok, v);
  }

  /** Where the pattern matches, between the texts `before` and `after`, `replaceAll`
      emits the substitution and goes on after the match. */
  lemma {:induction false} ReplaceFromAtMatch(s: string, pat: string, v: string, i: nat, before: string, after: string)
    requires |pat| > 0 && MatchAt(s, pat, i) && before == s[..i] && after == s[i + |pat|..]
    ensures ReplaceFrom(s, pat, v, i) == Substitution(v, pat, before, after) + ReplaceFrom(s, pat, v, i + |pat|)
  {
  }

  /** The first `|a|` characters of `a + t` are those of the brace-free `a`. */
  lemma BraceFreeHead(a: string, t: string)
    requires '{' !in a
    ensures forall j :: 0 <= j < |a| ==> (a + t)[j] != '{'
  {
    forall j | 0 <= j < |a| ensures (a + t)[j] != '{' {
      assert (a + t)[j] == a[j] && a[j] in a;
    }
  }

  /** A brace-free tail is copied unchanged by a `{`-led pattern. */
  lemma {:induction false} BraceFreeTailReplaced(s: string, k: nat, pat: string, v: string)
    requires |pat| > 0 && pat[0] == '{' && k <= |s|
    requires forall j :: k <= j < |s| ==> s[j] != '{'
    ensures ReplaceFrom(s, pat, v, k) == s[k..]
  {
    ReplaceFromLiteralSpan(s, pat, v, k, |s|);
    assert s[k..|s|] == s[k..];
  }


  /** A token inside brace-free text, such as a fenced ```` ```\n{{key}}\n``` ```` field
      value, renders to the same text with the key's value in the token's place, when
      that value holds neither `{` nor `$`. */
  lemma SubstitutedEmbeddedToken(p: PlaceholderMap, i: nat, a: string, b: string)
    requires i < |Keys| && '{' !in a && '{' !in b
    requires '{' !in Entries(p)[i].value && '$' !in Entries(p)[i].value
    ensures Substituted(a + Token(Keys[i]) + b, p) == a + Entries(p)[i].value + b
  {
    var es := Entries(p);
    var s := a + Token(Keys[i]) + b;
    KeysAreBraceFree();
    forall j | 0 <= j < i ensures !Occurs(s, Token(es[..i][j].key)) {
      OtherTokenAbsent(a, Keys[i], b, Keys[j]);
    }
    ApplyEntriesNoTokens(s, es[..i]);
    assert es[..i + 1][..i] == es[..i];
    ReplaceEmbeddedToken(a, Keys[i], b, es[i].value);
    var once := a + es[i].value + b;
    assert '{' !in once;
    ApplyEntriesBraceFreeTail(s, es, i + 1, |es|);
    assert es[..|es|] == es;
  }

  /** A `{`-free prefix is kept by every later `replaceAll` of a token. */
  lemma ReplaceAllKeepsPrefix(s: string, pat: string, v: string, pre: string)
    requires |pat| > 0 && pat[0] == '{' && '{' !in pre && StartsWith(s, pre)
    ensures StartsWith(ReplaceAll(s, pat, v), pre)
  {
    forall j | 0 <= j < |pre| ensures s[j] != '{' {
      assert s[j] == s[..|pre|][j] == pre[j] && pre[j] in pre;
    }
    ReplaceFromLiteralSpan(s, pat, v, 0, |pre|);
    var rest := ReplaceFrom(s, pat, v, |pre|);
    assert s[0..|pre|] == pre;
    assert (pre + rest)[..|pre|] == pre;
  }

  lemma {:induction false} ApplyEntriesKeepsPrefix(s: string, es: seq<Entry>, m: nat, n: nat, pre: string)
    requires m <= n <= |es| && '{' !in pre
    requires StartsWith(ApplyEntries(s, es[..m]), pre)
    ensures StartsWith(ApplyEntries(s, es[..n]), pre)
    decreases n - m
  {
    if m < n {
      ApplyEntriesKeepsPrefix(s, es, m, n - 1, pre);
      assert es[..n][..n - 1] == es[..n - 1];
      ReplaceAllKeepsPrefix(ApplyEntries(s, es[..n - 1]), Token(es[n - 1].key), es[n - 1].value, pre);
    }
  }

  /** A string that is exactly `{{key}}` renders to text that starts like the key's value,
      as far as that value starts with text holding neither `{` nor `$`. */
  lemma SubstitutedTokenPrefix(p: PlaceholderMap, i: nat, pre: string)
    requires i < |Keys| && '{' !in pre && '$' !in pre
    requires StartsWith(Entries(p)[i].value, pre)
    ensures StartsWith(Substituted(Token(Keys[i]), p), pre)
  {
    var es := Entries(p);
    var tok := Token(Keys[i]);
    KeysAreBraceFree();
    ApplyEntriesKeepsLaterToken(es, i, Keys[i]);
    assert es[..i + 1][..i] == es[..i];
    ReplaceAllExactToken(tok, es[i].value);
    var rest := es[i].value[|pre|..];
    assert es[i].value == pre + rest;
    SubstitutionLiteralHead(pre, rest, tok, "", "");
    var once := Substitution(es[i].value, tok, "", "");
    assert ApplyEntries(tok, es[..i + 1]) == once;
    assert once[..|pre|] == pre;
    ApplyEntriesKeepsPrefix(tok, es, i + 1, |es|, pre);
    assert es[..|es|] == es;
  }

  // ---------------------------------------------------------------------------------
  // URL check

  /** The rule of `isValidEmbedUrl` as status.ts:39-40 states it: not empty and starting
      with `http://`, `https://` or `discord://`. */
  predicate IsValidEmbedUrl(u: string)
  {
    |u| > 0 && (StartsWith(u, "http://") || StartsWith(u, "https://") || StartsWith(u, "discord://"))
  }

  const ValidUrlMessage :=
    "Every URL must start with one of (`http://`, `https://`, `discord://`).\n"
    + "URLs cannot be empty, if you do not want a URL then remove the URL line."

  const BadPlaceholderHint := "Your URL starts with `{{`, try removing it."

  /** Why a render stopped: a rendered `url` string that fails the check, or a `url` bound
      to a non-string, on which building the message itself throws a `TypeError`. */
  datatype RenderError = InvalidUrl(value: string) | UrlNotString(found: Json)

  function UrlErrorHead(u: string): string
  {
    if |u| > 0 then "Invalid URL `" + u + "`." else "Empty URL."
  }

  function UrlErrorHint(u: string): string
  {
    if StartsWith(u, "{{") then BadPlaceholderHint else ""
  }

  /** Three lines joined with newlines, as `[a, b, c].join('\n')` does. */
  function ThreeLines(a: string, b: string, c: string): string
  {
    a + "\n" + b + "\n" + c
  }

  /** The three-line message thrown for a rejected url string (status.ts:142-152). */
  function UrlErrorMessage(u: string): string
  {
    ThreeLines(UrlErrorHead(u), ValidUrlMessage, UrlErrorHint(u))
  }

  lemma ConcatStartsEnds(a: string, b: string)
    ensures StartsWith(a + b, a) && EndsWith(a + b, b)
  {
    assert (a + b)[..|a|] == a;
    assert (a + b)[|a + b| - |b|..] == b;
  }

  /** A join of three lines starts with the first line and its newline, and ends with
      the last line after its newline. */
  lemma ThreeLinesEnds(a: string, b: string, c: string)
    ensures StartsWith(ThreeLines(a, b, c), a + "\n")
    ensures EndsWith(ThreeLines(a, b, c), "\n" + c)
  {
    ConcatStartsEnds(a + "\n", b + "\n" + c);
    assert ThreeLines(a, b, c) == (a + "\n") + (b + "\n" + c);
    ConcatStartsEnds(a + "\n" + b, "\n" + c);
    assert ThreeLines(a, b, c) == (a + "\n" + b) + ("\n" + c);
  }

  /** The first line reads `Empty URL.` exactly for the empty value; otherwise it quotes
      the rendered value. */
  lemma UrlErrorMessageHead(u: string)
    ensures StartsWith(UrlErrorMessage(u), "Empty URL.\n") <==> u == ""
    ensures u != "" ==> StartsWith(UrlErrorMessage(u), "Invalid URL `" + u + "`.\n")
  {
    ThreeLinesEnds(UrlErrorHead(u), ValidUrlMessage, UrlErrorHint(u));
    HeadLine(u, UrlErrorMessage(u));
  }

  /** Any text that starts with the head line tells the empty value from the others. */
  lemma HeadLine(u: string, m: string)
    requires StartsWith(m, UrlErrorHead(u) + "\n")
    ensures StartsWith(m, "Empty URL.\n") <==> u == ""
    ensures u != "" ==> StartsWith(m, "Invalid URL `" + u + "`.\n")
  {
    var head := UrlErrorHead(u);
    if u == "" {
      assert head + "\n" == "Empty URL.\n";
    } else {
      assert head + "\n" == "Invalid URL `" + u + "`.\n";
      var e := "Empty URL.\n";
      assert m[0] == (head + "\n")[0] == 'I';
      assert !StartsWith(m, e) by {
        if |e| <= |m| {
          assert m[..|e|][0] == m[0] != e[0];
        }
      }
    }
  }

  /** The hint line is there exactly when the value still starts with `{{`. */
  lemma UrlErrorMessageHint(u: string)
    ensures EndsWith(UrlErrorMessage(u), BadPlaceholderHint) <==> StartsWith(u, "{{")
  {
    ThreeLinesEnds(UrlErrorHead(u), ValidUrlMessage, UrlErrorHint(u));
    HintLine(u, UrlErrorMessage(u));
  }

  /** Any text that ends with the hint line after a newline ends with the hint exactly
      when the value starts with `{{`. */
  lemma HintLine(u: string, m: string)
    requires EndsWith(m, "\n" + UrlErrorHint(u))
    ensures EndsWith(m, BadPlaceholderHint) <==> StartsWith(u, "{{")
  {
    var h := BadPlaceholderHint;
    if StartsWith(u, "{{") {
      var tail := "\n" + h;
      assert m[|m| - |h|..] == m[|m| - |tail|..][1..] == h;
    } else {
      assert m[|m| - 1] == '\n';
      assert !EndsWith(m, h) by {
        if |h| <= |m| {
          assert m[|m| - |h|..][|h| - 1] == m[|m| - 1] != h[|h| - 1];
        }
      }
    }
  }

  function RenderErrorMessage(e: RenderError): string
  {
    match e
    case InvalidUrl(u) => UrlErrorMessage(u)
    case UrlNotString(v) =>
      if v.JNull? then "Cannot read properties of null (reading 'length')"
      else "processed.startsWith is not a function"
  }

  // ---------------------------------------------------------------------------------
  // The renderer, as specification functions

  /** `processValue`: strings are substituted, arrays and objects rendered element by
      element, every other value returned as it is. */
  function Render(v: Json, p: PlaceholderMap): Result<Json, RenderError>
    decreases v
  {
    match v
    case JStr(s) => Ok(JStr(Substituted(s, p)))
    case JArr(items) =>
      (match RenderItems(items, p)
       case Ok(rs) => Ok(JArr(rs))
       case Err(e) => Err(e))
    case JObj(fs) =>
      (match RenderFields(fs, p)
       case Ok(out) => Ok(JObj(out))
       case Err(e) => Err(e))
    case _ => Ok(v)
  }

  /** `items.map(processValue)`: the first element that fails stops the map. */
  function RenderItems(items: seq<Json>, p: PlaceholderMap): Result<seq<Json>, RenderError>
    decreases items
  {
    if items == [] then Ok([])
    else
      match RenderItems(items[..|items| - 1], p)
      case Err(e) => Err(e)
      case Ok(rs) =>
        match Render(items[|items| - 1], p)
        case Err(e) => Err(e)
        case Ok(r) => Ok(rs + [r])
  }

  /** One iteration of `processObject`'s loop: render the value, then check it when the
      key is `url`. */
  function RenderField(f: Field, p: PlaceholderMap): Result<Field, RenderError>
    decreases f
  {
    match Render(f.value, p)
    case Err(e) => Err(e)
    case Ok(r) =>
      if f.key != "url" then Ok(Field(f.key, r))
      else if !r.JStr? then Err(UrlNotString(r))
      else if IsValidEmbedUrl(r.s) then Ok(Field(f.key, r))
      else Err(InvalidUrl(r.s))
  }

  /** `processObject`: the fields in order, the first failure stopping the render. */
  function RenderFields(fs: seq<Field>, p: PlaceholderMap): Result<seq<Field>, RenderError>
    decreases fs
  {
    if fs == [] then Ok([])
    else
      match RenderFields(fs[..|fs| - 1], p)
      case Err(e) => Err(e)
      case Ok(out) =>
        match RenderField(fs[|fs| - 1], p)
        case Err(e) => Err(e)
        case Ok(f) => Ok(out + [f])
  }

  // ---------------------------------------------------------------------------------
  // The renderer as the source runs it

  method ProcessValue(v: Json, p: PlaceholderMap) returns (r: Result<Json, RenderError>)
    ensures r == Render(v, p)
    decreases v, 1
  {
    match v {
      case JStr(s) =>
        var t := ReplacePlaceholders(s, p);
        r := Ok(JStr(t));
      case JArr(items) =>
        var out: seq<Json> := [];
        var i := 0;
        while i < |items|
          invariant 0 <= i <= |items|
          invariant RenderItems(items[..i], p) == Ok(out)
        {
          assert items[..i + 1][..i] == items[..i];
          var item := ProcessValue(items[i], p);
          if item.Err? {
            r := Err(item.error);
            assert RenderItems(items[..i + 1], p) == Err(item.error);
            RenderItemsPrefixError(items, p, i + 1);
            assert items[..|items|] == items;
            return;
          }
          out := out + [item.value];
          i := i + 1;
        }
        assert items[..|items|] == items;
        r := Ok(JArr(out));
      case JObj(fs) =>
        var out := ProcessObject(fs, p);
        r := if out.Ok? then Ok(JObj(out.value)) else Err(out.error);
      case _ =>
        r := Ok(v);
    }
  }

  method ProcessObject(fs: seq<Field>, p: PlaceholderMap) returns (r: Result<seq<Field>, RenderError>)
    ensures r == RenderFields(fs, p)
    decreases fs, 0
  {
    var out: seq<Field> := [];
    var i := 0;
    while i < |fs|
      invariant 0 <= i <= |fs|
      invariant RenderFields(fs[..i], p) == Ok(out)
    {
      assert fs[..i + 1][..i] == fs[..i];
      var key := fs[i].key;
      var processed := ProcessValue(fs[i].value, p);
      if processed.Err? {
        r := Err(processed.error);
      } else if key == "url" && !(processed.value.JStr? && IsValidEmbedUrl(processed.value.s)) {
        r := if processed.value.JStr? then Err(InvalidUrl(processed.value.s)) else Err(UrlNotString(processed.value));
      } else {
        out := out + [Field(key, processed.value)];
        i := i + 1;
        continue;
      }
      assert RenderFields(fs[..i + 1], p) == r;
      RenderFieldsPrefixError(fs, p, i + 1);
      assert fs[..|fs|] == fs;
      return;
    }
    assert fs[..|fs|] == fs;
    r := Ok(out);
  }

  /** Once a prefix fails, the whole list fails with the same error. */
  lemma {:induction false} RenderItemsPrefixError(items: seq<Json>, p: PlaceholderMap, n: nat)
    requires n <= |items| && RenderItems(items[..n], p).Err?
    ensures RenderItems(items[..|items|], p) == RenderItems(items[..n], p)
    decreases |items| - n
  {
    if n < |items| {
      assert items[..n + 1][..n] == items[..n];
      RenderItemsPrefixError(items, p, n + 1);
    }
  }

  lemma {:induction false} RenderFieldsPrefixError(fs: seq<Field>, p: PlaceholderMap, n: nat)
    requires n <= |fs| && RenderFields(fs[..n], p).Err?
    ensures RenderFields(fs[..|fs|], p) == RenderFields(fs[..n], p)
    decreases |fs| - n
  {
    if n < |fs| {
      assert fs[..n + 1][..n] == fs[..n];
      RenderFieldsPrefixError(fs, p, n + 1);
    }
  }

  // ---------------------------------------------------------------------------------
  // What a render means

  /** `r` is `v` with every string leaf substituted: arrays keep their length and order,
      objects their keys in the same order, and numbers, booleans and null are unchanged. */
  predicate IsRenderingOf(v: Json, r: Json, p: PlaceholderMap)
    decreases v
  {
    match v
    case JStr(s) => r == JStr(Substituted(s, p))
    case JArr(items) =>
      r.JArr? && |r.items| == |items|
      && forall i :: 0 <= i < |items| ==> IsRenderingOf(items[i], r.items[i], p)
    case JObj(fs) =>
      r.JObj? && |r.fields| == |fs|
      && forall i :: 0 <= i < |fs| ==>
           r.fields[i].key == fs[i].key && IsRenderingOf(fs[i].value, r.fields[i].value, p)
    case _ => r == v
  }

  /** A field passes the URL check: it is not named `url`, or it holds a string whose
      substituted form is a valid embed URL. */
  predicate UrlFieldValid(f: Field, p: PlaceholderMap)
  {
    f.key == "url" ==> f.value.JStr? && IsValidEmbedUrl(Substituted(f.value.s, p))
  }

  /** Every `url` field anywhere in the tree passes the URL check. */
  predicate UrlsValid(v: Json, p: PlaceholderMap)
    decreases v
  {
    match v
    case JArr(items) => forall i :: 0 <= i < |items| ==> UrlsValid(items[i], p)
    case JObj(fs) => forall i :: 0 <= i < |fs| ==> UrlsValid(fs[i].value, p) && UrlFieldValid(fs[i], p)
    case _ => true
  }

  /** The render succeeds exactly when every `url` field is valid, and then it preserves
      the shape of the tree. */
  lemma {:induction false} RenderCorrect(v: Json, p: PlaceholderMap)
    ensures Render(v, p).Ok? <==> UrlsValid(v, p)
    ensures Render(v, p).Ok? ==> IsRenderingOf(v, Render(v, p).value, p)
    decreases v, 1
  {
    match v
    case JArr(items) => RenderItemsCorrect(items, p);
    case JObj(fs) => RenderFieldsCorrect(fs, p);
    case _ =>
  }

  lemma {:induction false} RenderItemsCorrect(items: seq<Json>, p: PlaceholderMap)
    ensures RenderItems(items, p).Ok? <==> forall i :: 0 <= i < |items| ==> UrlsValid(items[i], p)
    ensures RenderItems(items, p).Ok? ==>
      |RenderItems(items, p).value| == |items|
      && forall i :: 0 <= i < |items| ==> IsRenderingOf(items[i], RenderItems(items, p).value[i], p)
    decreases items, 0
  {
    if items != [] {
      var n := |items| - 1;
      var init := items[..n];
      RenderItemsCorrect(init, p);
      RenderCorrect(items[n], p);
      assert forall i :: 0 <= i < n ==> init[i] == items[i];
    }
  }

  lemma RenderFieldCorrect(f: Field, p: PlaceholderMap)
    requires Render(f.value, p).Ok? ==> IsRenderingOf(f.value, Render(f.value, p).value, p)
    ensures RenderField(f, p).Ok? <==> Render(f.value, p).Ok? && UrlFieldValid(f, p)
    ensures RenderField(f, p).Ok? ==> RenderField(f, p).value == Field(f.key, Render(f.value, p).value)
  {
  }

  lemma {:induction false} RenderFieldsCorrect(fs: seq<Field>, p: PlaceholderMap)
    ensures RenderFields(fs, p).Ok? <==>
      forall i :: 0 <= i < |fs| ==> UrlsValid(fs[i].value, p) && UrlFieldValid(fs[i], p)
    ensures RenderFields(fs, p).Ok? ==>
      |RenderFields(fs, p).value| == |fs|
      && forall i :: 0 <= i < |fs| ==>
           RenderFields(fs, p).value[i].key == fs[i].key
           && IsRenderingOf(fs[i].value, RenderFields(fs, p).value[i].value, p)
    decreases fs, 0
  {
    if fs != [] {
      var n := |fs| - 1;
      var init := fs[..n];
      RenderFieldsCorrect(init, p);
      RenderCorrect(fs[n].value, p);
      RenderFieldCorrect(fs[n], p);
      assert forall i :: 0 <= i < n ==> init[i] == fs[i];
    }
  }

  /** The render of an object fails with `e` exactly when some field fails with `e` and
      every field before it renders: the first failing field, in key order, decides. */
  lemma {:induction false} RenderFieldsFirstError(fs: seq<Field>, p: PlaceholderMap, e: RenderError)
    ensures RenderFields(fs, p) == Err(e) <==>
      exists i :: 0 <= i < |fs| && RenderFields(fs[..i], p).Ok? && RenderField(fs[i], p) == Err(e)
    decreases |fs|
  {
    if fs != [] {
      var n := |fs| - 1;
      var init := fs[..n];
      RenderFieldsFirstError(init, p, e);
      assert forall i :: 0 <= i < n ==> init[..i] == fs[..i] && init[i] == fs[i];
      if RenderFields(fs, p) == Err(e) {
        if RenderFields(init, p).Ok? {
          assert RenderFields(fs[..n], p).Ok? && RenderField(fs[n], p) == Err(e);
        }
      }
    }
  }

  /** The scenario `{"title":"{{serverName}}"}` with the server name `Alpha`. */
  lemma TitleScenario(p: PlaceholderMap)
    requires p.serverName == "Alpha"
    ensures Render(JObj([Field("title", JStr("{{serverName}}"))]), p)
      == Ok(JObj([Field("title", JStr("Alpha"))]))
  {
    assert Entries(p)[0].value == "Alpha";
    assert '{' !in "Alpha" && '$' !in "Alpha";
    SubstitutedSingleToken(p, 0);
    assert Token(Keys[0]) == "{{serverName}}";
    var fs := [Field("title", JStr("{{serverName}}"))];
    assert Render(fs[0].value, p) == Ok(JStr("Alpha"));
    assert RenderField(fs[0], p) == Ok(Field("title", JStr("Alpha")));
    assert fs[..0] == [];
    assert RenderFields(fs[..0], p) == Ok([]);
    assert [] + [Field("title", JStr("Alpha"))] == [Field("title", JStr("Alpha"))];
    assert RenderFields(fs, p) == Ok([Field("title", JStr("Alpha"))]);
  }
}
