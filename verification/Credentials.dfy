/** What counts as a credential in a command line, said byte by byte without the scanner,
    and that the scanner takes out exactly those (daemon/src/attrib.rs). */
module Credentials {
  import opened Basics
  import opened Utf8
  import opened Redaction

  // ---- bytes and words

  /** The letter, in either case. */
  predicate Letter(x: byte, c: char) {
    x == c as int || ('a' <= c <= 'z' && x + 32 == c as int)
  }

  /** The word is there, in any mixture of cases. */
  predicate Spells(b: seq<byte>, p: nat, w: string) {
    p + |w| <= |b| && forall k | 0 <= k < |w| :: Letter(b[p + k], w[k])
  }

  /** The word is there, letter for letter. */
  predicate Says(b: seq<byte>, p: nat, w: string) {
    p + |w| <= |b| && forall k | 0 <= k < |w| :: b[p + k] == w[k] as int
  }

  predicate White(x: byte) {
    x == ' ' as int || x == '\t' as int || x == '\n' as int || x == '\r' as int || x == 12
  }

  predicate Stops(x: byte, other: char) {
    White(x) || x == '"' as int || x == '\'' as int || x == other as int
  }

  predicate Capital(x: byte) {
    'A' as int <= x <= 'Z' as int || '0' as int <= x <= '9' as int
  }

  predicate TokenByte(x: byte) {
    Capital(x) || 'a' as int <= x <= 'z' as int || x == '_' as int || x == '-' as int
  }

  /** Not in the middle of a word. */
  predicate Starts(b: seq<byte>, p: nat)
    requires p <= |b|
  {
    p == 0 || !TokenByte(b[p - 1]) || b[p - 1] == '-' as int
  }

  // ---- what a credential is

  const SCHEMES := ["bearer ", "basic "]
  const WORDS := ["token", "password", "secret", "api_key", "apikey"]
  const PREFIXES := [
    "github_pat_", "npm_", "ghp_", "gho_", "ghu_", "ghs_", "ghr_", "napi_", "sk_", "xoxa_", "xoxb_", "xoxp_", "xoxr_"]

  /** All the bytes from `v` to white space, a quote or `other`. */
  predicate Value(b: seq<byte>, v: nat, e: nat, other: char) {
    v < e <= |b| && (forall k | v <= k < e :: !Stops(b[k], other)) && (e < |b| ==> Stops(b[e], other))
  }

  /** "Bearer" or "Basic" at `p`, any spaces, and a value. */
  predicate AfterAScheme(b: seq<byte>, p: nat, v: nat, e: nat) {
    exists w | w in SCHEMES ::
      Spells(b, p, w) && p + |w| <= v && Value(b, v, e, '}') && forall k | p + |w| <= k < v :: b[k] == ' ' as int
  }

  predicate Quote(b: seq<byte>, p: nat) {
    p < |b| && (b[p] == '"' as int || b[p] == '\'' as int)
  }

  /** One of the words ends where `p` is. */
  predicate KeyWord(words: seq<string>, b: seq<byte>, p: nat) {
    exists w | w in words :: |w| <= p && Spells(b, p - |w|, w)
  }

  /** `=` at `p`, a quote or not, and a value. */
  predicate Assigned(b: seq<byte>, p: nat, v: nat, e: nat) {
    && p < |b| && b[p] == '=' as int
    && v == (if Quote(b, p + 1) then p + 2 else p + 1)
    && Value(b, v, e, '&')
  }

  predicate AfterAKey(b: seq<byte>, p: nat, v: nat, e: nat) {
    KeyWord(WORDS, b, p) && Assigned(b, p, v, e)
  }

  /** The prefix `w` at `p`, and eight token bytes or more up to `e`. */
  predicate Prefixed(b: seq<byte>, p: nat, w: string, e: nat) {
    && Says(b, p, w) && p + |w| + 8 <= e <= |b|
    && (forall k | p + |w| <= k < e :: TokenByte(b[k])) && (e < |b| ==> !TokenByte(b[e]))
  }

  predicate VendorsToken(words: seq<string>, b: seq<byte>, p: nat, e: nat) {
    exists w | w in words :: Prefixed(b, p, w, e) && Starts(b, p)
  }

  /** "AKIA" at `p` and sixteen capitals or digits or more. */
  predicate AccessKeyId(b: seq<byte>, p: nat, e: nat) {
    && Says(b, p, "AKIA") && Starts(b, p) && p + 20 <= e <= |b|
    && (forall k | p + 4 <= k < e :: Capital(b[k])) && (e < |b| ==> !Capital(b[e]))
  }

  predicate Credential(b: seq<byte>, p: nat, v: nat, e: nat) {
    || AfterAScheme(b, p, v, e)
    || AfterAKey(b, p, v, e)
    || (v == p && (VendorsToken(PREFIXES, b, p, e) || AccessKeyId(b, p, e)))
  }

  // ---- the rules find exactly the credentials

  lemma SpelledInAnyCase(b: seq<byte>, p: nat, w: string)
    requires forall k | 0 <= k < |w| :: !('A' <= w[k] <= 'Z')
    ensures Spells(b, p, w) <==> StartsWithAnyCase(b, p, w)
  {
    if p + |w| <= |b| {
      assert forall k | 0 <= k < |w| :: Letter(b[p + k], w[k]) <==> Lower(b[p + k]) == w[k] as int;
    }
  }

  lemma SchemesSpelled(b: seq<byte>, p: nat)
    ensures Spells(b, p, "bearer ") <==> StartsWithAnyCase(b, p, "bearer ")
    ensures Spells(b, p, "basic ") <==> StartsWithAnyCase(b, p, "basic ")
    ensures !(Spells(b, p, "bearer ") && Spells(b, p, "basic "))
  {
    SpelledInAnyCase(b, p, "bearer ");
    SpelledInAnyCase(b, p, "basic ");
    assert Spells(b, p, "bearer ") ==> Letter(b[p + 1], "bearer "[1]);
    assert Spells(b, p, "basic ") ==> Letter(b[p + 1], "basic "[1]);
  }

  lemma ValueRuns(b: seq<byte>, v: nat, e: nat, delims: Delims)
    requires v <= |b|
    ensures Value(b, v, e, if delims == AfterScheme then '}' else '&') <==> e > v && ValueEnd(b, v, delims) == e
  {
    var other := if delims == AfterScheme then '}' else '&';
    assert forall x: byte :: Stops(x, other) <==> Ends(x, delims);
    if Value(b, v, e, other) {
      RunEndsOnce(b, v, e, ValueEnd(b, v, delims), (x: byte) => !Ends(x, delims));
    }
  }

  lemma SchemeFound(b: seq<byte>, p: nat, v: nat, e: nat)
    ensures AfterAScheme(b, p, v, e) <==> SchemeValue(b, p) == Some((v, e))
  {
    SchemesSpelled(b, p);
    if SchemeAt(b, p).Some? {
      var after := SchemeAt(b, p).value;
      var first := SkipSpaces(b, after);
      ValueRuns(b, first, e, AfterScheme);
      if AfterAScheme(b, p, v, e) {
        RunEndsOnce(b, after, v, first, (x: byte) => x == 0x20);
      }
    }
  }

  lemma {:induction false} KeyReachesBack(b: seq<byte>, s: nat, eq: nat)
    requires s <= eq <= |b| && forall k | s <= k < eq :: IsTokenish(b[k])
    ensures KeyStart(b, eq) <= s
    decreases eq
  {
    if s < eq {
      KeyReachesBack(b, s, eq - 1);
    }
  }

  lemma KeyFound(b: seq<byte>, eq: nat, w: string)
    requires eq <= |b| && TokenWord(w)
    ensures |w| <= eq && Spells(b, eq - |w|, w) <==> EndsWithAnyCase(b, KeyStart(b, eq), eq, w)
  {
    if |w| <= eq {
      SpelledInAnyCase(b, eq - |w|, w);
      if Spells(b, eq - |w|, w) {
        forall k | eq - |w| <= k < eq ensures IsTokenish(b[k]) {
          assert Letter(b[eq - |w| + (k - (eq - |w|))], w[k - (eq - |w|)]);
        }
        KeyReachesBack(b, eq - |w|, eq);
      }
    }
  }

  lemma KeysFound(t: Tables, b: seq<byte>, eq: nat)
    requires eq <= |b| && TokenWords(t.keys)
    ensures SecretKeyBefore(t, b, eq) <==> KeyWord(t.keys, b, eq)
  {
    forall w | w in t.keys ensures |w| <= eq && Spells(b, eq - |w|, w) <==> EndsWithAnyCase(b, KeyStart(b, eq), eq, w) {
      KeyFound(b, eq, w);
    }
  }

  predicate TokenWord(w: string) {
    |w| > 0 && forall k | 0 <= k < |w| :: 'a' <= w[k] <= 'z' || w[k] == '_'
  }

  predicate TokenWords(words: seq<string>) {
    forall w | w in words :: TokenWord(w)
  }

  lemma PrefixRuns(b: seq<byte>, p: nat, w: string, e: nat)
    requires StartsWith(b, p, w) && TokenWord(w)
    ensures Prefixed(b, p, w, e) <==> RunEnd(b, p + |w|, IsTokenish) == e && e - (p + |w|) >= 8
    ensures RunEnd(b, p + |w|, IsTokenish) == RunEnd(b, p, IsTokenish)
  {
    if p + |w| <= e && RunEnds(b, p + |w|, e, IsTokenish) {
      RunEndsOnce(b, p + |w|, e, RunEnd(b, p + |w|, IsTokenish), IsTokenish);
    }
    forall k | p <= k < p + |w| ensures IsTokenish(b[k]) {
      assert b[p + (k - p)] == w[k - p] as int;
    }
    RunEndsOnce(b, p, RunEnd(b, p + |w|, IsTokenish), RunEnd(b, p, IsTokenish), IsTokenish);
  }

  /** Whichever prefix is found first, the token ends at the same place. */
  lemma {:induction false} VendorFound(t: Tables, b: seq<byte>, p: nat, from: nat, e: nat)
    requires from <= |t.prefixes| && TokenWords(t.prefixes)
    ensures VendorToken(t, b, p, from) == Some(e) <==> exists j :: from <= j < |t.prefixes| && Prefixed(b, p, t.prefixes[j], e)
    ensures VendorToken(t, b, p, from).Some? ==> VendorToken(t, b, p, from).value == RunEnd(b, p, IsTokenish)
    decreases |t.prefixes| - from
  {
    if from < |t.prefixes| {
      var w := t.prefixes[from];
      VendorFound(t, b, p, from + 1, e);
      if StartsWith(b, p, w) {
        PrefixRuns(b, p, w, e);
        PrefixEnds(t, b, p, e);
      }
    }
  }

  lemma PrefixEnds(t: Tables, b: seq<byte>, p: nat, e: nat)
    requires TokenWords(t.prefixes)
    ensures forall w | w in t.prefixes && Prefixed(b, p, w, e) :: e == RunEnd(b, p, IsTokenish)
  {
    forall w | w in t.prefixes && Prefixed(b, p, w, e) ensures e == RunEnd(b, p, IsTokenish) {
      PrefixRuns(b, p, w, e);
    }
  }

  lemma VendorsFound(t: Tables, b: seq<byte>, p: nat, e: nat)
    requires p <= |b| && TokenWords(t.prefixes)
    ensures WordStart(b, p) && VendorToken(t, b, p, 0) == Some(e) <==> VendorsToken(t.prefixes, b, p, e)
  {
    VendorFound(t, b, p, 0, e);
    if VendorsToken(t.prefixes, b, p, e) {
      var w :| w in t.prefixes && Prefixed(b, p, w, e);
      var j :| 0 <= j < |t.prefixes| && t.prefixes[j] == w;
      assert Prefixed(b, p, t.prefixes[j], e);
    }
  }

  lemma KeyIdFound(b: seq<byte>, p: nat, e: nat)
    requires p <= |b|
    ensures WordStart(b, p) && p + 20 <= |b| && StartsWith(b, p, "AKIA") && RunEnd(b, p + 4, IsUpperOrDigit) - p >= 20
              && RunEnd(b, p + 4, IsUpperOrDigit) == e
            <==> AccessKeyId(b, p, e)
  {
    assert Says(b, p, "AKIA") <==> StartsWith(b, p, "AKIA");
    if AccessKeyId(b, p, e) {
      RunEndsOnce(b, p + 4, e, RunEnd(b, p + 4, IsUpperOrDigit), IsUpperOrDigit);
    }
  }

  // What each kind begins with: no two kinds begin alike.

  lemma SchemeBegins(b: seq<byte>, p: nat, v: nat, e: nat)
    requires p < |b| && AfterAScheme(b, p, v, e)
    ensures b[p] == 'b' as int || b[p] == 'B' as int
  {
    var w :| w in SCHEMES && Spells(b, p, w);
    assert Letter(b[p + 0], w[0]);
  }

  lemma PrefixBegins(w: string)
    requires w in PREFIXES
    ensures w != "" && w[0] in {'g', 'n', 's', 'x'}
  {
  }

  lemma PrefixesAreWords()
    ensures TokenWords(PREFIXES)
  {
    assert TokenWord("github_pat_") && TokenWord("npm_") && TokenWord("napi_") && TokenWord("sk_");
    assert TokenWord("ghp_") && TokenWord("gho_") && TokenWord("ghu_") && TokenWord("ghs_") && TokenWord("ghr_");
    assert TokenWord("xoxa_") && TokenWord("xoxb_") && TokenWord("xoxp_") && TokenWord("xoxr_");
  }

  lemma WordsAreWords()
    ensures TokenWords(WORDS)
  {
  }

  lemma VendorBegins(b: seq<byte>, p: nat, e: nat)
    requires p < |b| && VendorsToken(PREFIXES, b, p, e)
    ensures b[p] in {'g' as int, 'n' as int, 's' as int, 'x' as int} && Starts(b, p)
  {
    var w :| w in PREFIXES && Prefixed(b, p, w, e);
    PrefixBegins(w);
    assert b[p + 0] == w[0] as int;
  }

  lemma KeyIdBegins(b: seq<byte>, p: nat, e: nat)
    requires p < |b| && AccessKeyId(b, p, e)
    ensures b[p] == 'A' as int && Starts(b, p)
  {
    assert b[p + 0] == "AKIA"[0] as int;
  }

  lemma TokenFound(t: Tables, b: seq<byte>, p: nat, e: nat)
    requires p < |b| && TokenWords(t.prefixes)
    ensures WordStart(b, p) && TokenAt(t, b, p) == Some(e) <==> VendorsToken(t.prefixes, b, p, e) || AccessKeyId(b, p, e)
  {
    VendorsFound(t, b, p, e);
    KeyIdFound(b, p, e);
    var vendor := VendorToken(t, b, p, 0);
    if vendor.Some? && WordStart(b, p) {
      VendorsFound(t, b, p, vendor.value);
      var w :| w in t.prefixes && Prefixed(b, p, w, vendor.value);
      assert b[p + 0] == w[0] as int;
      if AccessKeyId(b, p, e) {
        KeyIdBegins(b, p, e);
      }
    }
  }

  lemma TokensFound(b: seq<byte>, p: nat, e: nat)
    requires p < |b|
    ensures WordStart(b, p) && TokenAt(TABLES, b, p) == Some(e) <==> VendorsToken(PREFIXES, b, p, e) || AccessKeyId(b, p, e)
  {
    PrefixesAreWords();
    TokenFound(TABLES, b, p, e);
  }

  lemma AssignedValue(b: seq<byte>, p: nat, v: nat, e: nat)
    requires p < |b| && b[p] == '=' as int
    ensures ValueStart(b, p) == v && e > v && ValueEnd(b, v, AfterEquals) == e <==> Assigned(b, p, v, e)
  {
    ValueRuns(b, ValueStart(b, p), e, AfterEquals);
  }

  lemma ValueAfterKey(b: seq<byte>, p: nat, v: nat, e: nat)
    requires p < |b| && b[p] == '=' as int
    ensures SecretKeyBefore(TABLES, b, p) && ValueStart(b, p) == v && e > v && ValueEnd(b, v, AfterEquals) == e
            <==> AfterAKey(b, p, v, e)
  {
    WordsAreWords();
    KeysFound(TABLES, b, p);
    AssignedValue(b, p, v, e);
  }

  lemma TokenBegins(b: seq<byte>, p: nat, e: nat)
    requires p < |b| && (VendorsToken(PREFIXES, b, p, e) || AccessKeyId(b, p, e))
    ensures b[p] != 'b' as int && b[p] != 'B' as int && b[p] != '=' as int
  {
    if VendorsToken(PREFIXES, b, p, e) {
      VendorBegins(b, p, e);
    } else {
      KeyIdBegins(b, p, e);
    }
  }

  lemma NoTokenHere(b: seq<byte>, p: nat, e: nat)
    requires p < |b| && b[p] in {'b' as int, 'B' as int, '=' as int}
    ensures !VendorsToken(PREFIXES, b, p, e) && !AccessKeyId(b, p, e)
  {
    if VendorsToken(PREFIXES, b, p, e) || AccessKeyId(b, p, e) {
      TokenBegins(b, p, e);
    }
  }

  lemma SchemeMoves(b: seq<byte>, p: nat, v: nat, e: nat)
    requires p < |b| && SchemeValue(b, p).Some?
    ensures MoveAt(TABLES, b, p) == Move(v, true, e) <==> Credential(b, p, v, e)
  {
    var (v', e') := SchemeValue(b, p).value;
    SchemeFound(b, p, v', e');
    SchemeBegins(b, p, v', e');
    NoTokenHere(b, p, e);
    SchemeFound(b, p, v, e);
  }

  lemma KeyMoves(b: seq<byte>, p: nat, v: nat, e: nat)
    requires p < |b| && SchemeValue(b, p).None? && b[p] == '=' as int
    ensures MoveAt(TABLES, b, p) == Move(v, true, e) <==> Credential(b, p, v, e)
  {
    SchemeFound(b, p, v, e);
    NoTokenHere(b, p, e);
    TokensFound(b, p, e);
    ValueAfterKey(b, p, v, e);
    var m := MoveAt(TABLES, b, p);
    if !SecretKeyBefore(TABLES, b, p) && m.mask {
      NoTokenHere(b, p, m.next);
      TokensFound(b, p, m.next);
    }
  }

  lemma TokenMove(t: Tables, b: seq<byte>, p: nat, v: nat, e: nat)
    requires p < |b| && SchemeValue(b, p).None? && b[p] != '=' as int
    ensures MoveAt(t, b, p) == Move(v, true, e) <==> v == p && WordStart(b, p) && TokenAt(t, b, p) == Some(e)
  {
  }

  lemma TokenMoves(b: seq<byte>, p: nat, v: nat, e: nat)
    requires p < |b| && SchemeValue(b, p).None? && b[p] != '=' as int
    ensures MoveAt(TABLES, b, p) == Move(v, true, e) <==> Credential(b, p, v, e)
  {
    TokenMove(TABLES, b, p, v, e);
    SchemeFound(b, p, v, e);
    TokensFound(b, p, e);
  }

  /** The scanner, standing at `p`, takes out `v` to `e` exactly if that is the credential
      that begins at `p`. */
  lemma RulesFindCredentials(b: seq<byte>, p: nat, v: nat, e: nat)
    requires p < |b|
    ensures MoveAt(TABLES, b, p) == Move(v, true, e) <==> Credential(b, p, v, e)
  {
    if SchemeValue(b, p).Some? {
      SchemeMoves(b, p, v, e);
    } else if b[p] == '=' as int {
      KeyMoves(b, p, v, e);
    } else {
      TokenMoves(b, p, v, e);
    }
  }

  // ---- any tables of words

  /** What was taken out for a match elsewhere took `p` with it. */
  ghost predicate Swallows(t: Tables, b: seq<byte>, s: Span, p: nat) {
    s in Spans(t, b, 0) && s.at != p && s.from <= p < s.to
  }

  ghost predicate AllGone(t: Tables, b: seq<byte>, v: nat, e: nat) {
    forall k | v <= k < e :: Gone(Spans(t, b, 0), k)
  }

  lemma SpanGone(t: Tables, b: seq<byte>, s: Span)
    requires s in Spans(t, b, 0)
    ensures AllGone(t, b, s.from, s.to)
  {
    var j :| 0 <= j < |Spans(t, b, 0)| && Spans(t, b, 0)[j] == s;
  }

  lemma SpanOfMatch(t: Tables, b: seq<byte>, s: Span)
    requires s in Spans(t, b, 0)
    ensures s.at < |b| && MoveAt(t, b, s.at) == Move(s.from, true, s.to)
  {
    SpansApart(t, b, 0);
    var k :| 0 <= k < |Spans(t, b, 0)| && Spans(t, b, 0)[k] == s;
  }

  lemma InOrderOfPlace(t: Tables, b: seq<byte>, s: Span, s': Span)
    requires s in Spans(t, b, 0) && s' in Spans(t, b, 0)
    ensures s == s' || s.to <= s'.at || s'.to <= s.at
  {
    SpansApart(t, b, 0);
    var spans := Spans(t, b, 0);
    var j :| 0 <= j < |spans| && spans[j] == s;
    var k :| 0 <= k < |spans| && spans[k] == s';
  }

  lemma SwallowedIsNotTaken(t: Tables, b: seq<byte>, p: nat, v: nat, e: nat, s: Span)
    requires Swallows(t, b, s, p)
    ensures Span(p, v, e) !in Spans(t, b, 0)
  {
    if Span(p, v, e) in Spans(t, b, 0) {
      SpanOfMatch(t, b, s);
      SpanOfMatch(t, b, Span(p, v, e));
      InOrderOfPlace(t, b, Span(p, v, e), s);
    }
  }

  lemma UnswallowedIsTaken(t: Tables, b: seq<byte>, p: nat)
    requires p < |b| && Sound(t) && Matches(t, b, p) && forall s :: !Swallows(t, b, s, p)
    ensures Span(p, MoveAt(t, b, p).copyTo, MoveAt(t, b, p).next) in Spans(t, b, 0)
    ensures AllGone(t, b, MoveAt(t, b, p).copyTo, MoveAt(t, b, p).next)
  {
    var spans := Spans(t, b, 0);
    NoMatchSurvives(t, b, 0, p);
    if Gone(spans, p) {
      var k :| 0 <= k < |spans| && spans[k].from <= p < spans[k].to;
      assert !Swallows(t, b, spans[k], p);
      SpanOfMatch(t, b, spans[k]);
    }
    SpanGone(t, b, Span(p, MoveAt(t, b, p).copyTo, MoveAt(t, b, p).next));
  }

  // ---- spans in order

  predicate Ordered(spans: seq<Span>) {
    && (forall k | 0 <= k < |spans| :: spans[k].at <= spans[k].from < spans[k].to)
    && (forall j, k | 0 <= j < k < |spans| :: spans[j].to <= spans[k].at)
  }

  lemma SpansAreOrdered(t: Tables, b: seq<byte>)
    ensures Ordered(Spans(t, b, 0))
  {
    SpansApart(t, b, 0);
  }

  /** What comes after a span and before any later match is kept. */
  lemma KeptBetween(spans: seq<Span>, s: Span, p: nat, e: nat, k: nat)
    requires Ordered(spans) && s in spans && s.from <= p < s.to <= k < e
    requires forall z | z in spans :: z.at <= p || e <= z.at
    ensures !Gone(spans, k)
  {
    var j :| 0 <= j < |spans| && spans[j] == s;
    forall l | 0 <= l < |spans| ensures !(spans[l].from <= k < spans[l].to) {
      assert spans[l] in spans;
    }
  }

  /** No rule matches inside the value itself. */
  predicate Quiet(t: Tables, b: seq<byte>, v: nat, e: nat) {
    forall q | v <= q < e && q < |b| :: !Matches(t, b, q)
  }

  lemma NothingWithin(t: Tables, b: seq<byte>, p: nat, q: nat)
    requires Sound(t) && p < q < |b|
    requires var m := MoveAt(t, b, p); q < m.next && Quiet(t, b, m.copyTo, m.next)
    ensures !Matches(t, b, q)
  {
    if q < MoveAt(t, b, p).copyTo {
      CopiesHideNothing(t, b, p, q);
    }
  }

  lemma NoneBegins(t: Tables, b: seq<byte>, p: nat, e: nat)
    requires Sound(t) && p < |b| && MoveAt(t, b, p).next == e && Quiet(t, b, MoveAt(t, b, p).copyTo, e)
    ensures forall z | z in Spans(t, b, 0) :: z.at <= p || e <= z.at
  {
    forall z | z in Spans(t, b, 0) ensures z.at <= p || e <= z.at {
      SpanOfMatch(t, b, z);
      if p < z.at < e {
        NothingWithin(t, b, p, z.at);
      }
    }
  }

  // ---- what a span can look like

  predicate Word(b: seq<byte>, v: nat, e: nat) {
    v < e <= |b| && (forall k | v <= k < e :: TokenByte(b[k])) && (e < |b| ==> !TokenByte(b[e]))
  }

  predicate Capitals(b: seq<byte>, v: nat, e: nat) {
    v < e <= |b| && forall k | v <= k < e :: Capital(b[k])
  }

  predicate Shape(b: seq<byte>, p: nat, v: nat, e: nat) {
    Value(b, v, e, '}') || Value(b, v, e, '&') || Word(b, v, e) || (p == v && Capitals(b, v, e))
  }

  lemma SchemeShape(b: seq<byte>, p: nat)
    requires SchemeValue(b, p).Some?
    ensures Value(b, SchemeValue(b, p).value.0, SchemeValue(b, p).value.1, '}')
  {
    ValueRuns(b, SchemeValue(b, p).value.0, SchemeValue(b, p).value.1, AfterScheme);
  }

  lemma TokenShape(t: Tables, b: seq<byte>, p: nat)
    requires TokenWords(t.prefixes) && TokenAt(t, b, p).Some?
    ensures Shape(b, p, p, TokenAt(t, b, p).value)
  {
    var e := TokenAt(t, b, p).value;
    if VendorToken(t, b, p, 0).Some? {
      VendorFound(t, b, p, 0, e);
      assert Word(b, p, e);
    } else {
      forall k | p <= k < e ensures Capital(b[k]) {
        if k < p + 4 {
          assert b[p + (k - p)] == "AKIA"[k - p] as int;
        }
      }
      assert Capitals(b, p, e);
    }
  }

  lemma ShapeOfSpan(t: Tables, b: seq<byte>, s: Span)
    requires TokenWords(t.prefixes) && s in Spans(t, b, 0)
    ensures Shape(b, s.at, s.from, s.to)
  {
    SpanOfMatch(t, b, s);
    if SchemeValue(b, s.at).Some? {
      SchemeShape(b, s.at);
    } else if b[s.at] == '=' as int && SecretKeyBefore(t, b, s.at) {
      ValueRuns(b, s.from, s.to, AfterEquals);
    } else {
      TokenShape(t, b, s.at);
    }
  }

  lemma WordInside(b: seq<byte>, at: nat, v: nat, to: nat, p: nat, e: nat)
    requires Shape(b, at, v, to) && v <= p < to && (at == v ==> v < p)
    requires p < e <= |b| && Starts(b, p) && forall k | p <= k < e :: TokenByte(b[k])
    ensures e <= to
  {
    assert to < e ==> TokenByte(b[to]);
  }

  /** What took out the beginning of a word took out the word. */
  lemma WordsGoWhole(t: Tables, b: seq<byte>, s: Span, p: nat, e: nat)
    requires TokenWords(t.prefixes) && Swallows(t, b, s, p) && p < e <= |b| && Starts(b, p)
    requires forall k | p <= k < e :: TokenByte(b[k])
    ensures e <= s.to
  {
    ShapeOfSpan(t, b, s);
    WordInside(b, s.at, s.from, s.to, p, e);
  }

  lemma WordGoes(t: Tables, b: seq<byte>, p: nat)
    requires TokenWords(t.prefixes) && Sound(t) && p < |b| && Matches(t, b, p) && Starts(b, p) && MoveAt(t, b, p).copyTo == p
    requires forall k | p <= k < MoveAt(t, b, p).next :: TokenByte(b[k])
    ensures AllGone(t, b, p, MoveAt(t, b, p).next)
  {
    if s :| Swallows(t, b, s, p) {
      WordsGoWhole(t, b, s, p, MoveAt(t, b, p).next);
      SpanGone(t, b, s);
    } else {
      UnswallowedIsTaken(t, b, p);
    }
  }

  /** A value after white space goes whole, unless a span has taken the place before it; then
      all of it stays, if nothing begins within. */
  lemma SpacedValue(b: seq<byte>, spans: seq<Span>, p: nat, v: nat, e: nat)
    requires Ordered(spans) && forall s | s in spans :: Shape(b, s.at, s.from, s.to)
    requires p < v - 1 < |b| && White(b[v - 1]) && (Gone(spans, p) || Span(p, v, e) in spans)
    ensures !Gone(spans, p) ==> forall k | v <= k < e :: Gone(spans, k)
    ensures Gone(spans, p) && (forall z | z in spans :: z.at <= p || e <= z.at) ==> forall k | v <= k < e :: !Gone(spans, k)
  {
    if Gone(spans, p) {
      var l :| 0 <= l < |spans| && spans[l].from <= p < spans[l].to;
      var s := spans[l];
      assert Shape(b, s.at, s.from, s.to);
      assert s.to < v;
      if forall z | z in spans :: z.at <= p || e <= z.at {
        forall k | v <= k < e ensures !Gone(spans, k) {
          KeptBetween(spans, s, p, e, k);
        }
      }
    } else {
      var j :| 0 <= j < |spans| && spans[j] == Span(p, v, e);
    }
  }

  lemma GoneIsSwallowed(t: Tables, b: seq<byte>, p: nat)
    requires p < |b| && MoveAt(t, b, p).copyTo > p
    ensures Gone(Spans(t, b, 0), p) <==> exists s :: Swallows(t, b, s, p)
  {
    var spans := Spans(t, b, 0);
    if Gone(spans, p) {
      var k :| 0 <= k < |spans| && spans[k].from <= p < spans[k].to;
      SpanOfMatch(t, b, spans[k]);
      assert Swallows(t, b, spans[k], p);
    }
    if s :| Swallows(t, b, s, p) {
      SpanGone(t, b, s);
    }
  }

  // ---- what the scanner takes out

  /** Nothing but credentials is taken out. */
  lemma OnlyCredentialsGo(b: seq<byte>, s: Span)
    requires s in Spans(TABLES, b, 0)
    ensures s.at < |b| && Credential(b, s.at, s.from, s.to)
  {
    SpanOfMatch(TABLES, b, s);
    RulesFindCredentials(b, s.at, s.from, s.to);
  }

  /** Every credential is taken out, exactly unless the place where it begins went with an
      earlier one. */
  lemma EveryCredentialGoes(b: seq<byte>, p: nat, v: nat, e: nat)
    requires p < |b| && Credential(b, p, v, e)
    ensures Span(p, v, e) in Spans(TABLES, b, 0) <==> !exists s :: Swallows(TABLES, b, s, p)
  {
    RulesFindCredentials(b, p, v, e);
    TablesAreSound();
    if s :| Swallows(TABLES, b, s, p) {
      SwallowedIsNotTaken(TABLES, b, p, v, e, s);
    } else {
      UnswallowedIsTaken(TABLES, b, p);
    }
  }

  /** Wherever a credential begins, either its value is taken out or the place itself is. */
  lemma NoCredentialSurvives(b: seq<byte>, p: nat, v: nat, e: nat)
    requires p < |b| && Credential(b, p, v, e)
    ensures Gone(Spans(TABLES, b, 0), p) || forall k | v <= k < e :: Gone(Spans(TABLES, b, 0), k)
  {
    EveryCredentialGoes(b, p, v, e);
    if s :| Swallows(TABLES, b, s, p) {
      SpanGone(TABLES, b, s);
    } else {
      SpanGone(TABLES, b, Span(p, v, e));
    }
  }

  lemma VendorBytes(words: seq<string>, b: seq<byte>, p: nat, e: nat, k: nat)
    requires TokenWords(words) && VendorsToken(words, b, p, e) && p <= k < e
    ensures e <= |b| && TokenByte(b[k])
  {
    var w :| w in words && Prefixed(b, p, w, e);
    if k < p + |w| {
      assert b[p + (k - p)] == w[k - p] as int;
    }
  }

  lemma KeyIdBytes(b: seq<byte>, p: nat, e: nat, k: nat)
    requires AccessKeyId(b, p, e) && p <= k < e
    ensures e <= |b| && Capital(b[k])
  {
    if k < p + 4 {
      assert b[p + (k - p)] == "AKIA"[k - p] as int;
    }
  }

  /** A vendor's token and an access key id are always taken out whole, whatever is around
      them. */
  lemma TokensAlwaysGo(b: seq<byte>, p: nat, e: nat)
    requires p < |b| && (VendorsToken(PREFIXES, b, p, e) || AccessKeyId(b, p, e))
    ensures AllGone(TABLES, b, p, e)
  {
    RulesFindCredentials(b, p, p, e);
    PrefixesAreWords();
    forall k | p <= k < e ensures TokenByte(b[k]) {
      if VendorsToken(PREFIXES, b, p, e) {
        VendorBytes(PREFIXES, b, p, e, k);
      } else {
        KeyIdBytes(b, p, e, k);
      }
    }
    TablesAreSound();
    WordGoes(TABLES, b, p);
  }

  // ---- values after a scheme or a key

  /** No credential begins inside the value itself. */
  ghost predicate Bare(b: seq<byte>, v: nat, e: nat) {
    forall q: nat, x: nat, y: nat | v <= q < e :: !Credential(b, q, x, y)
  }

  lemma BareIsQuiet(b: seq<byte>, v: nat, e: nat)
    requires Bare(b, v, e)
    ensures Quiet(TABLES, b, v, e)
  {
    forall q | v <= q < e && q < |b| ensures !Matches(TABLES, b, q) {
      var m := MoveAt(TABLES, b, q);
      RulesFindCredentials(b, q, m.copyTo, m.next);
      assert !Credential(b, q, m.copyTo, m.next);
    }
  }

  /** What every value is up against. */
  lemma ValueFacts(b: seq<byte>, p: nat, v: nat, e: nat)
    requires p < v && p < |b| && Credential(b, p, v, e)
    ensures var spans := Spans(TABLES, b, 0);
      && Ordered(spans) && (forall s | s in spans :: Shape(b, s.at, s.from, s.to))
      && (Gone(spans, p) <==> exists s :: Swallows(TABLES, b, s, p))
      && (Gone(spans, p) || Span(p, v, e) in spans)
      && (Bare(b, v, e) ==> forall z | z in spans :: z.at <= p || e <= z.at)
  {
    RulesFindCredentials(b, p, v, e);
    TablesAreSound();
    PrefixesAreWords();
    SpansAreOrdered(TABLES, b);
    forall s | s in Spans(TABLES, b, 0) ensures Shape(b, s.at, s.from, s.to) {
      ShapeOfSpan(TABLES, b, s);
    }
    GoneIsSwallowed(TABLES, b, p);
    EveryCredentialGoes(b, p, v, e);
    if Bare(b, v, e) {
      BareIsQuiet(b, v, e);
      NoneBegins(TABLES, b, p, e);
    }
  }

  lemma SchemeEndsInSpace(b: seq<byte>, p: nat, v: nat, e: nat)
    requires AfterAScheme(b, p, v, e)
    ensures p < v - 1 < |b| && White(b[v - 1])
  {
    var w :| w in SCHEMES && Spells(b, p, w) && p + |w| <= v && Value(b, v, e, '}') && forall k | p + |w| <= k < v :: b[k] == ' ' as int;
    if v == p + |w| {
      assert Letter(b[p + (|w| - 1)], w[|w| - 1]);
    }
  }

  /** The value after "Bearer" or "Basic" goes whole, exactly unless an earlier credential
      ran into the word itself; then a bare value is kept, every byte of it. */
  lemma SchemeValueGoesExactlyWhen(b: seq<byte>, p: nat, v: nat, e: nat)
    requires AfterAScheme(b, p, v, e)
    ensures var spans := Spans(TABLES, b, 0);
      && (!Gone(spans, p) ==> forall k | v <= k < e :: Gone(spans, k))
      && (Gone(spans, p) && Bare(b, v, e) ==> forall k | v <= k < e :: !Gone(spans, k))
  {
    SchemeEndsInSpace(b, p, v, e);
    ValueFacts(b, p, v, e);
    SpacedValue(b, Spans(TABLES, b, 0), p, v, e);
  }

  /** The same for a value after `=`, of any spans that may have taken the `=`. */
  lemma KeyedValue(b: seq<byte>, spans: seq<Span>, p: nat, v: nat, e: nat)
    requires Ordered(spans) && p < v && (Gone(spans, p) || Span(p, v, e) in spans)
    ensures (forall s | s in spans && s.from <= p < s.to :: e <= s.to) ==> forall k | v <= k < e :: Gone(spans, k)
    ensures (forall z | z in spans :: z.at <= p || e <= z.at) ==>
      forall s, k | s in spans && s.from <= p < s.to <= k && v <= k < e :: !Gone(spans, k)
  {
    if Gone(spans, p) {
      var l :| 0 <= l < |spans| && spans[l].from <= p < spans[l].to;
      assert spans[l] in spans;
    } else {
      var j :| 0 <= j < |spans| && spans[j] == Span(p, v, e);
    }
    if forall z | z in spans :: z.at <= p || e <= z.at {
      forall s, k | s in spans && s.from <= p < s.to <= k && v <= k < e ensures !Gone(spans, k) {
        KeptBetween(spans, s, p, e, k);
      }
    }
  }

  /** The value after a key's `=` goes whole, exactly unless an earlier credential took the
      `=` and ended before the value does; then a bare value is kept from there on. */
  lemma KeyValueGoesExactlyWhen(b: seq<byte>, p: nat, v: nat, e: nat)
    requires AfterAKey(b, p, v, e)
    ensures var spans := Spans(TABLES, b, 0);
      && ((forall s | s in spans && s.from <= p < s.to :: e <= s.to) ==> forall k | v <= k < e :: Gone(spans, k))
      && (Bare(b, v, e) ==> forall s, k | s in spans && s.from <= p < s.to <= k && v <= k < e :: !Gone(spans, k))
  {
    ValueFacts(b, p, v, e);
    KeyedValue(b, Spans(TABLES, b, 0), p, v, e);
  }

  lemma PlainValue(b: seq<byte>, s: Span, p: nat, e: nat)
    requires Shape(b, s.at, s.from, s.to) && s.from <= p < s.to && p < e <= |b| && b[p] == '=' as int
    requires forall k | p + 1 <= k < e :: !Stops(b[k], '&') && b[k] != '}' as int
    ensures e <= s.to
  {
  }

  /** So a value that is neither quoted nor holds a brace always goes whole. */
  lemma PlainKeyValuesAlwaysGo(b: seq<byte>, p: nat, v: nat, e: nat)
    requires AfterAKey(b, p, v, e) && v == p + 1 && forall k | v <= k < e :: b[k] != '}' as int
    ensures forall k | v <= k < e :: Gone(Spans(TABLES, b, 0), k)
  {
    ValueFacts(b, p, v, e);
    forall s | s in Spans(TABLES, b, 0) && s.from <= p < s.to ensures e <= s.to {
      PlainValue(b, s, p, e);
    }
    KeyValueGoesExactlyWhen(b, p, v, e);
  }

  /** Text with no credential in it comes back as it was. */
  lemma NothingElseGoes(b: seq<byte>)
    requires Bare(b, 0, |b|)
    ensures Redacted(TABLES, b, 0) == b
  {
    BareIsQuiet(b, 0, |b|);
    OrdinaryTextIsUntouched(TABLES, b, 0);
  }

  /** Some other credential's value reaches over `p`. */
  ghost predicate Covered(b: seq<byte>, p: nat) {
    exists q: nat, x: nat, y: nat :: q != p && x <= p < y && Credential(b, q, x, y)
  }

  lemma SwallowedIsCovered(b: seq<byte>, s: Span, p: nat)
    requires Swallows(TABLES, b, s, p)
    ensures Covered(b, p)
  {
    OnlyCredentialsGo(b, s);
  }

  /** A credential no other one reaches over is always taken out. */
  lemma UncoveredCredentialGoes(b: seq<byte>, p: nat, v: nat, e: nat)
    requires p < |b| && Credential(b, p, v, e) && !Covered(b, p)
    ensures Span(p, v, e) in Spans(TABLES, b, 0)
  {
    EveryCredentialGoes(b, p, v, e);
    if s :| Swallows(TABLES, b, s, p) {
      SwallowedIsCovered(b, s, p);
    }
  }

  // ---- where an earlier credential saves a later one

  /** Every credential begins with one of these, a token only where a word does. */
  lemma CredentialBegins(b: seq<byte>, p: nat, v: nat, e: nat)
    requires p < |b| && Credential(b, p, v, e)
    ensures b[p] in {'b' as int, 'B' as int, '=' as int}
         || (b[p] in {'g' as int, 'n' as int, 's' as int, 'x' as int, 'A' as int} && Starts(b, p))
  {
    if AfterAScheme(b, p, v, e) {
      SchemeBegins(b, p, v, e);
    } else if VendorsToken(PREFIXES, b, p, e) {
      VendorBegins(b, p, e);
    } else if AccessKeyId(b, p, e) {
      KeyIdBegins(b, p, e);
    } else {
      assert AfterAKey(b, p, v, e);
    }
  }

  lemma NoneBeginsHere(b: seq<byte>, p: nat)
    requires p < |b| && b[p] !in {'b' as int, 'B' as int, '=' as int}
    requires b[p] in {'g' as int, 'n' as int, 's' as int, 'x' as int, 'A' as int} ==> !Starts(b, p)
    ensures !Matches(TABLES, b, p)
  {
    var m := MoveAt(TABLES, b, p);
    RulesFindCredentials(b, p, m.copyTo, m.next);
    if Credential(b, p, m.copyTo, m.next) {
      CredentialBegins(b, p, m.copyTo, m.next);
    }
  }

  lemma OneMove(t: Tables, b: seq<byte>, p: nat, v: nat, e: nat)
    requires p < |b| && p <= v < e <= |b| && MoveAt(t, b, p) == Move(v, true, e)
    ensures Redacted(t, b, p) == b[p..v] + MARKER + Redacted(t, b, e)
  {
  }

  lemma Around(b: seq<byte>, p: nat, v: nat, e: nat)
    requires p <= v <= e <= |b|
    ensures b[0..p] + (b[p..v] + MARKER + b[e..]) == b[..v] + MARKER + b[e..]
  {
    assert b[..v] == b[0..p] + b[p..v];
  }

  /** A match at `p`, and nothing before it nor after its value. */
  lemma OneSpan(t: Tables, b: seq<byte>, p: nat, v: nat, e: nat)
    requires p < |b| && p <= v < e <= |b| && MoveAt(t, b, p) == Move(v, true, e)
    requires Quiet(t, b, 0, p) && Quiet(t, b, e, |b|) && Boundary(b, p) && !IsQuote(b[p])
    ensures Redacted(t, b, 0) == b[..v] + MARKER + b[e..]
  {
    OrdinaryTextIsCopied(t, b, 0, p);
    OneMove(t, b, p, v, e);
    OrdinaryTextIsUntouched(t, b, e);
    Around(b, p, v, e);
  }

  lemma MarkerSays()
    ensures Spelled(MARKER, "[redacted]")
  {
  }

  /** "_authToken=Bearer 12345" */
  predicate SchemeAsValue(b: seq<byte>) {
    |b| == 23 && Says(b, 0, "_authToken=") && Says(b, 11, "Bearer ") && Says(b, 18, "12345")
  }

  lemma BearerSpelled(b: seq<byte>, p: nat)
    requires Says(b, p, "Bearer ")
    ensures Spells(b, p, "bearer ")
    ensures b[p + 6] == ' ' as int && forall k | p <= k < p + 6 :: !Stops(b[k], '&')
  {
    assert b[p + 6] == "Bearer "[6] as int;
    forall k | p <= k < p + 6 ensures !Stops(b[k], '&') {
      assert b[p + (k - p)] == "Bearer "[k - p] as int;
    }
    forall k | 0 <= k < 7 ensures Letter(b[p + k], "bearer "[k]) {
      assert b[p + k] == "Bearer "[k] as int;
    }
  }

  lemma TokenSpelled(b: seq<byte>)
    requires Says(b, 0, "_authToken=")
    ensures Spells(b, 5, "token") && b[10] == '=' as int
    ensures forall q | 0 <= q < 10 :: !Matches(TABLES, b, q)
  {
    assert b[0 + 10] == "_authToken="[10] as int;
    forall k | 0 <= k < 5 ensures Letter(b[5 + k], "token"[k]) {
      assert b[0 + (5 + k)] == "_authToken="[5 + k] as int;
    }
    forall q | 0 <= q < 10 ensures !Matches(TABLES, b, q) {
      assert b[0 + q] == "_authToken="[q] as int;
      assert q > 0 ==> b[0 + (q - 1)] == "_authToken="[q - 1] as int;
      NoneBeginsHere(b, q);
    }
  }

  lemma DigitsBeginNothing(b: seq<byte>, from: nat, to: nat)
    requires from <= to <= |b| && forall k | from <= k < to :: b[k] < 'A' as int && b[k] != '=' as int
    ensures Quiet(TABLES, b, from, to)
  {
    forall q | from <= q < to ensures !Matches(TABLES, b, q) {
      NoneBeginsHere(b, q);
    }
  }

  lemma BearerIsAToken(b: seq<byte>)
    requires SchemeAsValue(b)
    ensures AfterAKey(b, 10, 11, 17)
  {
    BearerSpelled(b, 11);
    TokenSpelled(b);
    SpelledKey(b, 10, 0, 11, 17);
  }

  lemma KeyComesFirst(b: seq<byte>)
    requires SchemeAsValue(b)
    ensures MoveAt(TABLES, b, 10) == Move(11, true, 17) && b[10] == '=' as int
    ensures Quiet(TABLES, b, 0, 10) && Quiet(TABLES, b, 17, 23)
  {
    BearerIsAToken(b);
    RulesFindCredentials(b, 10, 11, 17);
    TokenSpelled(b);
    NothingAfterBearer(b);
  }

  lemma NothingAfterBearer(b: seq<byte>)
    requires SchemeAsValue(b)
    ensures Quiet(TABLES, b, 17, 23)
  {
    BearerSpelled(b, 11);
    DigitsSpelled(b, 18);
    DigitsBeginNothing(b, 17, 23);
  }

  lemma BearerIsAScheme(b: seq<byte>)
    requires SchemeAsValue(b)
    ensures AfterAScheme(b, 11, 18, 23)
  {
    BearerSpelled(b, 11);
    DigitsSpelled(b, 18);
    SpelledScheme(b, 11, 0, 18, 23);
  }

  /** The word itself went as a key's value: "_authToken=[redacted] 12345". */
  lemma SchemeInAKeysValue(b: seq<byte>)
    requires SchemeAsValue(b)
    ensures AfterAScheme(b, 11, 18, 23)
    ensures Redacted(TABLES, b, 0) == b[..11] + MARKER + b[17..]
  {
    KeyComesFirst(b);
    OneSpan(TABLES, b, 10, 11, 17);
    BearerIsAScheme(b);
  }

  lemma DigitsSpelled(b: seq<byte>, p: nat)
    requires Says(b, p, "12345")
    ensures forall k | p <= k < p + 5 :: '1' as int <= b[k] <= '5' as int
  {
    forall k | p <= k < p + 5 ensures '1' as int <= b[k] <= '5' as int {
      assert b[p + (k - p)] == "12345"[k - p] as int;
    }
  }

  lemma SpelledScheme(b: seq<byte>, p: nat, n: nat, v: nat, e: nat)
    requires n < |SCHEMES| && Spells(b, p, SCHEMES[n]) && v == p + |SCHEMES[n]| && Value(b, v, e, '}')
    ensures AfterAScheme(b, p, v, e)
  {
  }

  lemma SpelledKey(b: seq<byte>, p: nat, n: nat, v: nat, e: nat)
    requires n < |WORDS| && |WORDS[n]| <= p < |b| && Spells(b, p - |WORDS[n]|, WORDS[n]) && b[p] == '=' as int
    requires v == (if Quote(b, p + 1) then p + 2 else p + 1) && Value(b, v, e, '&')
    ensures AfterAKey(b, p, v, e)
  {
  }

  /** "Bearer password=\"12345\"" */
  predicate KeyAsValue(b: seq<byte>) {
    && |b| == 23 && Says(b, 0, "Bearer ") && Says(b, 7, "password=") && Says(b, 17, "12345")
    && b[16] == '"' as int && b[22] == '"' as int
  }

  lemma PasswordSpelled(b: seq<byte>)
    requires Says(b, 7, "password=")
    ensures Spells(b, 7, "password") && b[15] == '=' as int
    ensures forall k | 7 <= k < 16 :: !Stops(b[k], '}')
  {
    forall k | 7 <= k < 16 ensures !Stops(b[k], '}') {
      assert b[7 + (k - 7)] == "password="[k - 7] as int;
    }
    assert b[7 + 8] == "password="[8] as int;
    forall k | 0 <= k < 8 ensures Letter(b[7 + k], "password"[k]) {
      assert b[7 + k] == "password="[k] as int;
    }
  }

  lemma PasswordIsAValue(b: seq<byte>)
    requires KeyAsValue(b)
    ensures AfterAScheme(b, 0, 7, 16) && !IsQuote(b[0])
  {
    BearerSpelled(b, 0);
    PasswordSpelled(b);
    SpelledScheme(b, 0, 0, 7, 16);
  }

  lemma NothingAfterPassword(b: seq<byte>)
    requires KeyAsValue(b)
    ensures Quiet(TABLES, b, 16, 23)
  {
    DigitsSpelled(b, 17);
    DigitsBeginNothing(b, 16, 23);
  }

  lemma QuotedPassword(b: seq<byte>)
    requires KeyAsValue(b)
    ensures AfterAKey(b, 15, 17, 22)
  {
    PasswordSpelled(b);
    DigitsSpelled(b, 17);
    SpelledKey(b, 15, 1, 17, 22);
  }

  /** The key and its `=` went as a scheme's value: "Bearer [redacted]\"12345\"". */
  lemma QuoteInASchemesValue(b: seq<byte>)
    requires KeyAsValue(b)
    ensures AfterAKey(b, 15, 17, 22)
    ensures Redacted(TABLES, b, 0) == b[..7] + MARKER + b[16..]
  {
    PasswordIsAValue(b);
    RulesFindCredentials(b, 0, 7, 16);
    NothingAfterPassword(b);
    OneSpan(TABLES, b, 0, 7, 16);
    QuotedPassword(b);
  }
}
